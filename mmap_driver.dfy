/**
 * The memory-mapped shutter driver of the gphoto driver: the "name@offset"
 * device string its constructor splits, and the hexadecimal-notation test
 * meant for the offset.
 */
module MMapDriver {
  import opened Wrappers
  import opened StdString

  /**
   * is_hex_notation: `s.compare(0, 2, "0x")` compares the first (at most two)
   * characters with "0x"; then the string must be longer than the prefix and
   * hold nothing but hexadecimal digits from index 2 on.
   */
  predicate IsHexNotation(s: string): (r: bool)
    ensures r ==> |s| > 2 && s[0] == '0' && s[1] == 'x' && s[2] in HexDigits
  {
    && s[..if |s| < 2 then |s| else 2] == "0x"
    && |s| > 2
    && FindFirstNotOf(s, HexDigits, 2).None?
  }

  /** The accepted strings, character by character: a lower-case "0x" and at least one hex digit. */
  lemma HexNotationChars(s: string)
    ensures IsHexNotation(s) <==>
      |s| > 2 && s[0] == '0' && s[1] == 'x' && forall i :: 2 <= i < |s| ==> IsHexDigit(s[i])
  {
    forall i | 2 <= i < |s|
      ensures s[i] in HexDigits <==> IsHexDigit(s[i])
    {
      HexDigitsAreHexDigits(s[i]);
    }
    if |s| >= 2 {
      assert s[..2] == "0x" <==> s[0] == '0' && s[1] == 'x' by {
        assert s[..2] == [s[0], s[1]];
      }
    }
  }

  /** The prefix alone is refused, and so is an upper-case 'X'. */
  lemma HexNotationExamples()
    ensures !IsHexNotation("0x")
    ensures !IsHexNotation("0X1")
    ensures IsHexNotation("0xDEADbeef")
  {
    HexNotationChars("0X1");
    HexNotationChars("0xDEADbeef");
  }

  /**
   * The constructor's check and split of `device`: refused unless it holds
   * exactly one '@' at index 2 or earlier, and unless `shiftGuard` (the value
   * of the third condition, `found << device.size() - 5`) is false; otherwise
   * the name before the '@' and the text after it.
   */
  function SplitDevice(device: string, shiftGuard: bool): (r: Option<(string, string)>)
    ensures r.Some? ==> device == r.value.0 + "@" + r.value.1
    ensures r.Some? ==> |r.value.0| <= 2 && '@' !in r.value.0 && '@' !in r.value.1
  {
    var n := Count(device, '@');
    var found := Find(device, '@');
    if n != 1 || found.None? || found.value > 2 || shiftGuard then None
    else
      var name := device[..found.value];
      var rest := device[found.value + 1..];
      assert device == name + "@" + rest;
      CountSplit(device, found.value, '@');
      Some((name, rest))
  }

  /** Joining a short '@'-free name and an '@'-free suffix with '@' gives back the two parts. */
  lemma SplitJoined(name: string, rest: string)
    requires |name| <= 2 && '@' !in name && '@' !in rest
    ensures SplitDevice(name + "@" + rest, false) == Some((name, rest))
  {
    var device := name + "@" + rest;
    var k := |name|;
    assert device[..k] == name;
    assert device[k + 1..] == rest;
    CountSplit(device, k, '@');
    var f := Find(device, '@');
    assert f.value >= k by {
      assert forall j :: 0 <= j < k ==> device[j] == name[j];
    }
    assert f.value <= k;
  }

  /** SplitDevice refuses exactly when the '@' count is not 1, the '@' lies past index 2, or the guard fires. */
  lemma SplitDeviceRefuses(device: string, shiftGuard: bool)
    ensures SplitDevice(device, shiftGuard).None? <==>
      Count(device, '@') != 1 || shiftGuard || exists i :: 2 < i < |device| && device[i] == '@'
  {
    var f := Find(device, '@');
    if Count(device, '@') == 1 && !shiftGuard {
      if exists i :: 2 < i < |device| && device[i] == '@' {
        var i :| 2 < i < |device| && device[i] == '@';
        if f.value <= 2 {
          CountSplit(device, f.value, '@');
          var tail := device[f.value + 1..];
          assert tail[i - f.value - 1] == '@';
        }
      }
    }
  }

  class MMemDriver {
    var name: string
    var offset: bv32
    var connected: bool

    /**
     * The constructor: not connected, offset 0, and `name` the text before the
     * '@' when the device string passes the check (left empty otherwise).
     * `shiftGuard` is the value of the constructor's third condition.
     */
    constructor (device: string, shiftGuard: bool)
      ensures !connected && offset == 0
      ensures SplitDevice(device, shiftGuard).Some? ==> name == SplitDevice(device, shiftGuard).value.0
      ensures SplitDevice(device, shiftGuard).None? ==> name == ""
    {
      connected := false;
      offset := 0;
      name := "";
      new;
      var n := Count(device, '@');
      var found := Find(device, '@');
      if n != 1 || found.None? || found.value > 2 || shiftGuard {
        return;
      }
      name := device[..found.value];
      var suffix := device[found.value + 1..];
    }
  }
}
