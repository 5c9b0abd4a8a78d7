/**
 * gmae/find_video_captures.py: choosing the capture device from the list of
 * device names and trimming the chosen name.
 *
 * `take_preferred_index` is modelled twice: as written, where its last
 * fallback returns a name instead of an index, and as evidently intended,
 * returning the index of the last name.  The caller is modelled on the
 * intended version; its as-written counterpart shows the failure.
 */
module VideoCaptures {
  import opened Wrappers
  import Utils

  const HdmiUsbAdapterSearchString: string := "ugreen"
  const IntegratedSearchString: string := "integrated"

  /** `needle` occurs in `hay` starting at position `i`. */
  predicate OccursAt(hay: string, needle: string, i: nat)
  {
    i + |needle| <= |hay| && hay[i..i + |needle|] == needle
  }

  /** Python's `needle in hay` on strings. */
  predicate Contains(hay: string, needle: string)
  {
    needle <= hay || (hay != [] && Contains(hay[1..], needle))
  }

  /** `needle in hay` holds exactly when `needle` occurs at some position of `hay`. */
  lemma {:induction false} ContainsMeansOccurs(hay: string, needle: string)
    ensures Contains(hay, needle) <==> exists i: nat :: OccursAt(hay, needle, i)
  {
    if needle <= hay {
      assert OccursAt(hay, needle, 0);
    } else if hay == [] {
      assert forall i: nat :: !OccursAt(hay, needle, i);
    } else {
      ContainsMeansOccurs(hay[1..], needle);
      ContainsShift(hay, needle);
    }
  }

  /** Past its first position, `needle` occurs in `hay` where it occurs in `hay[1..]`, shifted by one. */
  lemma ContainsShift(hay: string, needle: string)
    requires hay != [] && !(needle <= hay)
    ensures (exists i: nat :: OccursAt(hay, needle, i)) <==> (exists i: nat :: OccursAt(hay[1..], needle, i))
  {
    if i: nat :| OccursAt(hay, needle, i) {
      assert i != 0;
      assert hay[1..][i - 1..i - 1 + |needle|] == hay[i..i + |needle|];
      assert OccursAt(hay[1..], needle, i - 1);
    }
    if i: nat :| OccursAt(hay[1..], needle, i) {
      assert hay[i + 1..i + 1 + |needle|] == hay[1..][i..i + |needle|];
      assert OccursAt(hay, needle, i + 1);
    }
  }

  /** The test inside `name_find`'s generator. */
  predicate Matches(name: string, search: string, exclude: bool)
  {
    var found := Contains(Utils.CaseFold(name), Utils.CaseFold(search));
    if exclude then !found else found
  }

  /**
   * A name matches exactly when the folded search string occurs in the
   * folded name, the answer being negated when `exclude` is set.
   */
  lemma MatchesMeansOccurs(name: string, search: string, exclude: bool)
    ensures Matches(name, search, exclude) <==>
      (exclude != exists i: nat :: OccursAt(Utils.CaseFold(name), Utils.CaseFold(search), i))
  {
    ContainsMeansOccurs(Utils.CaseFold(name), Utils.CaseFold(search));
  }

  /** `name_find(search_str, exclude)`: the first matching name, or None. */
  function NameFind(names: seq<string>, search: string, exclude: bool): (r: Option<string>)
    ensures r.Some? ==> r.value in names && Matches(r.value, search, exclude)
    ensures r.None? <==> forall j :: 0 <= j < |names| ==> !Matches(names[j], search, exclude)
  {
    if names == [] then None
    else if Matches(names[0], search, exclude) then Some(names[0])
    else NameFind(names[1..], search, exclude)
  }

  /** `names.index(name)`: the position of the first occurrence. */
  function IndexOf(names: seq<string>, name: string): (i: nat)
    requires name in names
    ensures i < |names| && names[i] == name
    ensures forall j :: 0 <= j < i ==> names[j] != name
  {
    if names[0] == name then 0 else 1 + IndexOf(names[1..], name)
  }

  /**
   * Looking up the name `name_find` returned gives the position of the first
   * matching name: a duplicate of that name earlier in the list would itself
   * have matched first.
   */
  lemma {:induction false} IndexOfFoundIsFirstMatch(names: seq<string>, search: string, exclude: bool)
    requires NameFind(names, search, exclude).Some?
    ensures var i := IndexOf(names, NameFind(names, search, exclude).value);
      Matches(names[i], search, exclude) &&
      forall j :: 0 <= j < i ==> !Matches(names[j], search, exclude)
  {
    if !Matches(names[0], search, exclude) {
      IndexOfFoundIsFirstMatch(names[1..], search, exclude);
      var found := NameFind(names, search, exclude).value;
      assert names[0] != found;
      assert IndexOf(names, found) == 1 + IndexOf(names[1..], found);
    }
  }

  /** What `take_preferred_index` as written can give back. */
  datatype Preferred = Index(i: nat) | Element(name: string) | IndexError

  /**
   * `take_preferred_index` as written: a single name gives 0; then the first
   * name mentioning "ugreen"; then the first name not mentioning
   * "integrated"; otherwise `names[-1]`, the last NAME, or IndexError for
   * an empty list.
   */
  function TakePreferredIndexAsWritten(names: seq<string>): (r: Preferred)
    ensures |names| == 0 <==> r.IndexError?
    ensures r.Index? ==> r.i < |names|
    ensures r.Element? ==> |names| >= 2 && r.name == names[|names| - 1]
  {
    if |names| == 1 then Index(0)
    else
      var withSearchString := NameFind(names, HdmiUsbAdapterSearchString, false);
      if withSearchString.Some? then Index(IndexOf(names, withSearchString.value))
      else
        var nonIntegrated := NameFind(names, IntegratedSearchString, true);
        if nonIntegrated.Some? then Index(IndexOf(names, nonIntegrated.value))
        else if names == [] then IndexError
        else Element(names[|names| - 1])
  }

  /**
   * `take_preferred_index` as intended: the same preferences, falling back to
   * the index of the last name.
   */
  function TakePreferredIndex(names: seq<string>): (i: nat)
    requires names != []
    ensures i < |names|
  {
    if |names| == 1 then 0
    else
      var withSearchString := NameFind(names, HdmiUsbAdapterSearchString, false);
      if withSearchString.Some? then IndexOf(names, withSearchString.value)
      else
        var nonIntegrated := NameFind(names, IntegratedSearchString, true);
        if nonIntegrated.Some? then IndexOf(names, nonIntegrated.value)
        else |names| - 1
  }

  /** A single device is chosen whatever its name. */
  lemma SingleDeviceIsChosen(name: string)
    ensures TakePreferredIndex([name]) == 0
    ensures TakePreferredIndexAsWritten([name]) == Index(0)
  {
  }

  /** With several devices, the first one whose name mentions "ugreen" (any case) wins. */
  lemma AdapterIsPreferred(names: seq<string>, k: nat)
    requires |names| >= 2 && k < |names|
    requires Matches(names[k], HdmiUsbAdapterSearchString, false)
    ensures var i := TakePreferredIndex(names);
      Matches(names[i], HdmiUsbAdapterSearchString, false) &&
      forall j :: 0 <= j < i ==> !Matches(names[j], HdmiUsbAdapterSearchString, false)
  {
    IndexOfFoundIsFirstMatch(names, HdmiUsbAdapterSearchString, false);
  }

  /**
   * With several devices and none mentioning "ugreen", the first one whose
   * name does not mention "integrated" wins.
   */
  lemma NonIntegratedIsPreferred(names: seq<string>, k: nat)
    requires |names| >= 2 && k < |names|
    requires forall j :: 0 <= j < |names| ==> !Matches(names[j], HdmiUsbAdapterSearchString, false)
    requires Matches(names[k], IntegratedSearchString, true)
    ensures var i := TakePreferredIndex(names);
      Matches(names[i], IntegratedSearchString, true) &&
      forall j :: 0 <= j < i ==> !Matches(names[j], IntegratedSearchString, true)
  {
    IndexOfFoundIsFirstMatch(names, IntegratedSearchString, true);
  }

  /**
   * The two versions agree wherever the written one returns an index; they
   * differ exactly in the last fallback, where it returns the last name and
   * the intended one its index.
   */
  lemma AsWrittenDiffersOnlyInFallback(names: seq<string>)
    requires names != []
    ensures TakePreferredIndexAsWritten(names).Index? ==>
      TakePreferredIndexAsWritten(names).i == TakePreferredIndex(names)
    ensures TakePreferredIndexAsWritten(names).Element? <==>
      |names| >= 2 &&
      (forall j :: 0 <= j < |names| ==> !Matches(names[j], HdmiUsbAdapterSearchString, false)) &&
      (forall j :: 0 <= j < |names| ==> !Matches(names[j], IntegratedSearchString, true))
    ensures TakePreferredIndexAsWritten(names).Element? ==>
      TakePreferredIndex(names) == |names| - 1 &&
      names[TakePreferredIndex(names)] == TakePreferredIndexAsWritten(names).name
  {
    if |names| >= 2 {
      var withSearchString := NameFind(names, HdmiUsbAdapterSearchString, false);
      if withSearchString.None? {
        var nonIntegrated := NameFind(names, IntegratedSearchString, true);
        if nonIntegrated.None? {
          assert TakePreferredIndexAsWritten(names) == Element(names[|names| - 1]);
          assert TakePreferredIndex(names) == |names| - 1;
        }
      }
    }
  }

  // ----- trimming the chosen name -----

  /** `s.split(':')[-1]`: what follows the last colon, or all of `s` when it has none. */
  function AfterLastColon(s: string): (r: string)
    ensures ':' !in r
    ensures |r| <= |s| && r == s[|s| - |r|..]
    ensures |r| < |s| ==> s[|s| - |r| - 1] == ':'
  {
    if s == [] then []
    else if s[|s| - 1] == ':' then []
    else AfterLastColon(s[..|s| - 1]) + [s[|s| - 1]]
  }

  /** The characters `str.isspace` accepts, which `str.strip()` removes. */
  predicate IsSpace(c: char)
  {
    var n := c as int;
    || 9 <= n <= 13 || 28 <= n <= 32 || n == 0x85 || n == 0xA0 || n == 0x1680
    || 0x2000 <= n <= 0x200A || n == 0x2028 || n == 0x2029 || n == 0x202F
    || n == 0x205F || n == 0x3000
  }

  /** How many characters `str.lstrip()` drops: the length of the leading run of whitespace. */
  function LeadingSpaces(s: string): (n: nat)
    ensures n <= |s|
    ensures forall k :: 0 <= k < n ==> IsSpace(s[k])
    ensures n < |s| ==> !IsSpace(s[n])
  {
    if s != [] && IsSpace(s[0]) then 1 + LeadingSpaces(s[1..]) else 0
  }

  /** How many characters `str.rstrip()` drops: the length of the trailing run of whitespace. */
  function TrailingSpaces(s: string): (n: nat)
    ensures n <= |s|
    ensures forall k :: |s| - n <= k < |s| ==> IsSpace(s[k])
    ensures n < |s| ==> !IsSpace(s[|s| - n - 1])
  {
    if s != [] && IsSpace(s[|s| - 1]) then 1 + TrailingSpaces(s[..|s| - 1]) else 0
  }

  /**
   * `r` is the piece of `s` starting at `a`, and every character of `s`
   * before or after that piece is whitespace.
   */
  predicate PieceBetweenSpaces(s: string, r: string, a: nat)
  {
    && a + |r| <= |s| && r == s[a..a + |r|]
    && (forall k :: 0 <= k < a ==> IsSpace(s[k]))
    && (forall k :: a + |r| <= k < |s| ==> IsSpace(s[k]))
  }

  /** `str.strip()`: `lstrip` followed by `rstrip`. */
  function Strip(s: string): string
  {
    var rest := s[LeadingSpaces(s)..];
    rest[..|rest| - TrailingSpaces(rest)]
  }

  /** What `strip` keeps is a piece with only whitespace around it and none at its ends. */
  lemma StripIsPieceBetweenSpaces(s: string)
    ensures PieceBetweenSpaces(s, Strip(s), LeadingSpaces(s))
    ensures Strip(s) != [] ==> !IsSpace(Strip(s)[0]) && !IsSpace(Strip(s)[|Strip(s)| - 1])
  {
    StripIsPiece(s);
    StripDropsTrailingSpaces(s);
    StripEndsAreNotSpaces(s);
  }

  /** `strip` keeps the piece of `s` that starts after the leading whitespace. */
  lemma StripIsPiece(s: string)
    ensures var a := LeadingSpaces(s); a + |Strip(s)| <= |s| && Strip(s) == s[a..a + |Strip(s)|]
  {
    var a := LeadingSpaces(s);
    var rest := s[a..];
    var m := |rest| - TrailingSpaces(rest);
    assert rest[..m] == s[a..a + m];
  }

  /** What `strip` drops after that piece is whitespace. */
  lemma StripDropsTrailingSpaces(s: string)
    ensures forall k :: LeadingSpaces(s) + |Strip(s)| <= k < |s| ==> IsSpace(s[k])
  {
    var a := LeadingSpaces(s);
    var rest := s[a..];
    var m := |rest| - TrailingSpaces(rest);
    assert |Strip(s)| == m;
    forall k | a + m <= k < |s|
      ensures IsSpace(s[k])
    {
      assert s[k] == rest[k - a];
    }
  }

  /** Neither end of what `strip` keeps is whitespace. */
  lemma StripEndsAreNotSpaces(s: string)
    ensures Strip(s) != [] ==> !IsSpace(Strip(s)[0]) && !IsSpace(Strip(s)[|Strip(s)| - 1])
  {
    var a := LeadingSpaces(s);
    var rest := s[a..];
    var m := |rest| - TrailingSpaces(rest);
    var r := Strip(s);
    if r != [] {
      assert r[0] == rest[0] == s[a];
      assert r[|r| - 1] == rest[m - 1];
    }
  }

  /**
   * `device_names[index].split(':')[-1].strip()`: the text after the last
   * colon without surrounding whitespace.
   */
  function ActualName(deviceName: string): (r: string)
    ensures ':' !in r
    ensures r != [] ==> !IsSpace(r[0]) && !IsSpace(r[|r| - 1])
  {
    var tail := AfterLastColon(deviceName);
    StripKeepsCharacters(tail);
    StripIsPieceBetweenSpaces(tail);
    Strip(tail)
  }

  /** `strip` keeps no character its input did not have. */
  lemma StripKeepsCharacters(s: string)
    ensures forall c :: c in Strip(s) ==> c in s
  {
    var a := LeadingSpaces(s);
    var rest := s[a..];
    var r := Strip(s);
    assert r == rest[..|rest| - TrailingSpaces(rest)];
    forall c | c in r ensures c in s {
      var k :| 0 <= k < |r| && r[k] == c;
      assert s[a + k] == c;
    }
  }

  /** A name without a colon and without surrounding whitespace is kept whole. */
  lemma PlainNameIsKept(s: string)
    requires ':' !in s
    requires s != [] ==> !IsSpace(s[0]) && !IsSpace(s[|s| - 1])
    ensures ActualName(s) == s
  {
    var tail := AfterLastColon(s);
    assert forall k :: 0 <= k < |s| ==> s[k] != ':';
    assert |tail| == |s|;
    assert tail == s;
    assert LeadingSpaces(s) == 0;
    assert s[0..] == s;
    assert TrailingSpaces(s) == 0;
  }

  /** What follows the last colon is the part after a colon that no later colon follows. */
  lemma {:induction false} AfterLastColonOf(prefix: string, tail: string)
    requires ':' !in tail
    ensures AfterLastColon(prefix + [':'] + tail) == tail
    decreases |tail|
  {
    var s := prefix + [':'] + tail;
    if tail != [] {
      var front := tail[..|tail| - 1];
      assert s[..|s| - 1] == prefix + [':'] + front;
      AfterLastColonOf(prefix, front);
      assert tail == front + [tail[|tail| - 1]];
    }
  }

  /** Whatever precedes the last colon is dropped; only the stripped text after it is kept. */
  lemma ActualNameDropsPrefix(prefix: string, tail: string)
    requires ':' !in tail
    ensures ActualName(prefix + [':'] + tail) == Strip(tail)
  {
    AfterLastColonOf(prefix, tail);
  }

  // ----- the caller -----

  /** Why `find_capture_device_name_with_index` raises. */
  datatype DeviceError =
    | NoVideoCaptureDevices   // EnvironmentError: the list is empty
    | ListIndexNotInteger     // TypeError: the list is indexed by a name
    | ListIndexOutOfRange     // IndexError: `names[-1]` of an empty list

  /**
   * `find_capture_device_name_with_index` on the scanned names, as written:
   * an empty list raises; otherwise the chosen entry is trimmed, which fails
   * when `take_preferred_index` returned a name.
   */
  function FindCaptureDeviceAsWritten(deviceNames: seq<string>): (r: Result<(string, nat), DeviceError>)
    ensures deviceNames == [] <==> r == Err(NoVideoCaptureDevices)
    ensures r != Err(ListIndexOutOfRange)
    ensures r.Ok? ==> r.value.1 < |deviceNames| && r.value.0 == ActualName(deviceNames[r.value.1])
    ensures r == Err(ListIndexNotInteger) <==> |deviceNames| >= 2 && OnlyIntegrated(deviceNames)
  {
    if deviceNames == [] then Err(NoVideoCaptureDevices)
    else
      AsWrittenDiffersOnlyInFallback(deviceNames);
      match TakePreferredIndexAsWritten(deviceNames)
      case Index(i) => Ok((ActualName(deviceNames[i]), i))
      case Element(_) => Err(ListIndexNotInteger)
      case IndexError => Err(ListIndexOutOfRange)
  }

  /**
   * `find_capture_device_name_with_index` with the intended fallback: an
   * empty list raises before any choice is made; otherwise the result is a
   * valid index and the trimmed name of that entry.
   */
  function FindCaptureDevice(deviceNames: seq<string>): (r: Result<(string, nat), DeviceError>)
    ensures deviceNames == [] <==> r == Err(NoVideoCaptureDevices)
    ensures r.Ok? ==> r.value.1 < |deviceNames| && r.value.0 == ActualName(deviceNames[r.value.1])
    ensures r.Ok? ==> ':' !in r.value.0
  {
    if deviceNames == [] then Err(NoVideoCaptureDevices)
    else
      var index := TakePreferredIndex(deviceNames);
      Ok((ActualName(deviceNames[index]), index))
  }

  /** The devices in the list are all built in and none is an adapter. */
  ghost predicate OnlyIntegrated(deviceNames: seq<string>)
  {
    && (forall j :: 0 <= j < |deviceNames| ==> !Matches(deviceNames[j], HdmiUsbAdapterSearchString, false))
    && (forall j :: 0 <= j < |deviceNames| ==> !Matches(deviceNames[j], IntegratedSearchString, true))
  }

  /**
   * Several devices, all built in and none an adapter: the written code
   * hands the last name to the list lookup, which raises TypeError.
   */
  lemma OnlyIntegratedFailsAsWritten(deviceNames: seq<string>)
    requires |deviceNames| >= 2 && OnlyIntegrated(deviceNames)
    ensures TakePreferredIndexAsWritten(deviceNames) == Element(deviceNames[|deviceNames| - 1])
    ensures FindCaptureDeviceAsWritten(deviceNames) == Err(ListIndexNotInteger)
  {
    assert NameFind(deviceNames, HdmiUsbAdapterSearchString, false).None?;
    assert NameFind(deviceNames, IntegratedSearchString, true).None?;
  }

  /** For the same lists the intended code picks the last device. */
  lemma OnlyIntegratedPicksLast(deviceNames: seq<string>)
    requires |deviceNames| >= 2 && OnlyIntegrated(deviceNames)
    ensures FindCaptureDevice(deviceNames) ==
      Ok((ActualName(deviceNames[|deviceNames| - 1]), |deviceNames| - 1))
  {
    assert NameFind(deviceNames, HdmiUsbAdapterSearchString, false).None?;
    assert NameFind(deviceNames, IntegratedSearchString, true).None?;
    assert TakePreferredIndex(deviceNames) == |deviceNames| - 1;
  }

  /**
   * Two names that start with "Integrated" and have no letter u, such as
   * "Integrated Camera" and "Integrated IR Camera": the written code raises
   * TypeError, the intended code picks the second device.
   */
  lemma TwoBuiltInCamerasFail(first: string, second: string)
    requires |first| >= 10 && first[..10] == "Integrated"
    requires forall k :: 0 <= k < |first| ==> first[k] != 'u' && first[k] != 'U'
    requires |second| >= 10 && second[..10] == "Integrated"
    requires forall k :: 0 <= k < |second| ==> second[k] != 'u' && second[k] != 'U'
    ensures FindCaptureDeviceAsWritten([first, second]) == Err(ListIndexNotInteger)
    ensures FindCaptureDevice([first, second]) == Ok((ActualName(second), 1))
  {
    BuiltInCameraName(first);
    BuiltInCameraName(second);
    var names := [first, second];
    assert OnlyIntegrated(names);
    OnlyIntegratedFailsAsWritten(names);
    OnlyIntegratedPicksLast(names);
  }

  /** The laptop camera names meet those conditions. */
  lemma LaptopCameraNames(first: string, second: string)
    requires first == "Integrated Camera" && second == "Integrated IR Camera"
    ensures |first| >= 10 && first[..10] == "Integrated"
    ensures forall k :: 0 <= k < |first| ==> first[k] != 'u' && first[k] != 'U'
    ensures |second| >= 10 && second[..10] == "Integrated"
    ensures forall k :: 0 <= k < |second| ==> second[k] != 'u' && second[k] != 'U'
  {
  }

  /**
   * A name that starts with "Integrated" and has no letter u is neither an
   * adapter nor a non-integrated device.
   */
  lemma BuiltInCameraName(name: string)
    requires |name| >= 10 && name[..10] == "Integrated"
    requires forall k :: 0 <= k < |name| ==> name[k] != 'u' && name[k] != 'U'
    ensures !Matches(name, HdmiUsbAdapterSearchString, false)
    ensures !Matches(name, IntegratedSearchString, true)
  {
    var folded := Utils.CaseFold(name);
    SearchStringsFolded();
    assert folded[..10] == Utils.CaseFold(name[..10]);
    assert IntegratedSearchString <= folded;
    assert forall k :: 0 <= k < |folded| ==> folded[k] == Utils.FoldChar(name[k]) && folded[k] != 'u';
    NoUgreenIn(folded);
  }

  /** The search strings are already folded, and "Integrated" folds to one of them. */
  lemma SearchStringsFolded()
    ensures Utils.CaseFold(HdmiUsbAdapterSearchString) == HdmiUsbAdapterSearchString
    ensures Utils.CaseFold(IntegratedSearchString) == IntegratedSearchString
    ensures Utils.CaseFold("Integrated") == IntegratedSearchString
  {
    Utils.FoldedUnchanged(HdmiUsbAdapterSearchString);
    Utils.FoldedUnchanged(IntegratedSearchString);
    CapitalIntegratedFolds();
  }

  lemma CapitalIntegratedFolds()
    ensures Utils.CaseFold("Integrated") == "integrated"
  {
  }

  /** A string without the letter 'u' does not contain "ugreen". */
  lemma {:induction false} NoUgreenIn(s: string)
    requires 'u' !in s
    ensures !Contains(s, "ugreen")
  {
    if s != [] {
      assert s[0] != 'u';
      assert 'u' !in s[1..];
      NoUgreenIn(s[1..]);
    }
  }
}
