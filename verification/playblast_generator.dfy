/**
 * The playblast generator's option state: a dictionary of capture options with defaults, a frame
 * range that is coerced to an ordered pair of integers when possible, and the part of `run`
 * that merges an optional range and output path into the options before capturing.
 */
module Playblast {
  import opened Outcomes

  /** The Python values that reach the options dictionary and the frame-range arguments. */
  datatype Value =
    | NoneValue
    | Bool(b: bool)
    | Int(i: int)
    | Float(f: real)
    | Str(s: string)
    | List(items: seq<Value>)
    | Tuple(items: seq<Value>)

  // ---------------------------------------------------------------------------------------------
  // Python's int() on the values above

  predicate IsDigit(c: char) {
    '0' <= c <= '9'
  }

  /** The ASCII whitespace `int()` skips around a number: space, tab, newline, vertical tab, form feed, return. */
  predicate IsSpace(c: char) {
    c == ' ' || c == '\t' || c == '\n' || c == '\r' || c as int == 11 || c as int == 12
  }

  predicate AllDigits(s: string) {
    forall i :: 0 <= i < |s| ==> IsDigit(s[i])
  }

  /** Leading whitespace removed. */
  function TrimLeft(s: string): (r: string)
    ensures |r| <= |s| && r == s[|s| - |r|..]
    ensures |r| > 0 ==> !IsSpace(r[0])
  {
    if |s| > 0 && IsSpace(s[0]) then TrimLeft(s[1..]) else s
  }

  /** Trailing whitespace removed. */
  function TrimRight(s: string): (r: string)
    ensures |r| <= |s| && r == s[..|r|]
    ensures |r| > 0 ==> !IsSpace(r[|r| - 1])
  {
    if |s| > 0 && IsSpace(s[|s| - 1]) then TrimRight(s[..|s| - 1]) else s
  }

  /** The number a string of decimal digits denotes. */
  function DigitsValue(s: string): (n: nat)
    requires AllDigits(s)
  {
    if s == [] then 0 else 10 * DigitsValue(s[..|s| - 1]) + (s[|s| - 1] as int - '0' as int)
  }

  /** `int(s)` for a string: optional surrounding whitespace, an optional sign, then one or more digits. */
  function ParseInt(s: string): Option<int> {
    ParseSigned(TrimRight(TrimLeft(s)))
  }

  /** `int()` on a string with the whitespace already stripped. */
  function ParseSigned(t: string): Option<int> {
    if |t| > 0 && (t[0] == '-' || t[0] == '+') then
      if |t| > 1 && AllDigits(t[1..]) then
        var v: int := DigitsValue(t[1..]);
        Some(if t[0] == '-' then -v else v)
      else None
    else if |t| > 0 && AllDigits(t) then Some(DigitsValue(t))
    else None
  }

  /** `int(x)` for a float: the integer part, truncating toward zero. */
  function Truncate(x: real): (n: int)
    ensures x >= 0.0 ==> 0 <= n && n as real <= x < n as real + 1.0
    ensures x < 0.0 ==> n <= 0 && n as real - 1.0 < x <= n as real
  {
    if x >= 0.0 then x.Floor else -((-x).Floor)
  }

  /** `int(v)`, or None where Python raises. */
  function ToInt(v: Value): (r: Option<int>)
    ensures v.Int? ==> r == Some(v.i)
    ensures v.NoneValue? || v.List? || v.Tuple? ==> r == None
  {
    match v
    case Int(i) => Some(i)
    case Bool(b) => Some(if b then 1 else 0)
    case Float(x) => Some(Truncate(x))
    case Str(s) => ParseInt(s)
    case _ => None
  }

  /** `str(n)` for a natural number: its decimal digits, most significant first. */
  function NatRepr(n: nat): (s: string)
    decreases n
  {
    if n < 10 then ['0' + n as char] else NatRepr(n / 10) + ['0' + (n % 10) as char]
  }

  /** `str(n)` for an integer. */
  function IntRepr(n: int): string {
    if n < 0 then "-" + NatRepr(-n) else NatRepr(n)
  }

  lemma {:induction false} NatReprDigits(n: nat)
    ensures |NatRepr(n)| > 0 && AllDigits(NatRepr(n)) && DigitsValue(NatRepr(n)) == n
    decreases n
  {
    if n >= 10 {
      NatReprDigits(n / 10);
      var s := NatRepr(n);
      assert s[..|s| - 1] == NatRepr(n / 10);
    }
  }

  /** `int(str(n)) == n`: parsing undoes printing, for every integer. */
  lemma ParseIntRepr(n: int)
    ensures ParseInt(IntRepr(n)) == Some(n)
  {
    var m := if n < 0 then -n else n;
    NatReprDigits(m);
    var s := IntRepr(n);
    assert !IsSpace(s[0]) && !IsSpace(s[|s| - 1]);
    assert TrimLeft(s) == s;
    assert TrimRight(s) == s;
    if n < 0 {
      assert s[1..] == NatRepr(m);
    }
  }

  /** Whitespace around a number does not change what `int()` reads. */
  lemma ParseIntIgnoresPadding(s: string, c: char)
    requires IsSpace(c)
    ensures ParseInt([c] + s) == ParseInt(s)
    ensures ParseInt(s + [c]) == ParseInt(s)
  {
    assert ([c] + s)[1..] == s;
    assert TrimLeft([c] + s) == TrimLeft(s);
    TrimRightPadding(s, c);
  }

  lemma {:induction false} TrimRightPadding(s: string, c: char)
    requires IsSpace(c)
    ensures TrimRight(TrimLeft(s + [c])) == TrimRight(TrimLeft(s))
  {
    if s == [] {
      assert TrimLeft([c]) == TrimLeft([]);
    } else if IsSpace(s[0]) {
      assert (s + [c])[1..] == s[1..] + [c];
      assert TrimLeft(s + [c]) == TrimLeft(s[1..] + [c]);
      TrimRightPadding(s[1..], c);
    } else {
      assert TrimLeft(s + [c]) == s + [c] && TrimLeft(s) == s;
      assert (s + [c])[..|s|] == s;
      assert TrimRight(s + [c]) == TrimRight(s);
    }
  }

  // ---------------------------------------------------------------------------------------------
  // The frame range

  /**
   * `_coerce_frame_range`: when both values convert with int(), the two ints, swapped when
   * `last < first`; otherwise both values exactly as given.
   */
  function CoerceFrameRange(first: Value, last: Value): (r: (Value, Value))
    ensures ToInt(first).Some? && ToInt(last).Some? ==>
              && r.0.Int? && r.1.Int? && r.0.i <= r.1.i
              && multiset{r.0.i, r.1.i} == multiset{ToInt(first).value, ToInt(last).value}
  {
    match (ToInt(first), ToInt(last))
    case (Some(f), Some(l)) => if l < f then (Int(l), Int(f)) else (Int(f), Int(l))
    case _ => (first, last)
  }

  /** With convertible values the pair is swapped exactly when `last < first`. */
  lemma CoerceSwapsOnlyWhenReversed(first: Value, last: Value)
    requires ToInt(first).Some? && ToInt(last).Some?
    ensures var (f, l) := (ToInt(first).value, ToInt(last).value);
            CoerceFrameRange(first, last) == if l < f then (Int(l), Int(f)) else (Int(f), Int(l))
  {
  }

  /** When either value does not convert, both are kept exactly as given. */
  lemma CoerceKeepsRawOnFailure(first: Value, last: Value)
    requires ToInt(first).None? || ToInt(last).None?
    ensures CoerceFrameRange(first, last) == (first, last)
  {
  }

  /** Coercing an already coerced range changes nothing. */
  lemma CoerceIdempotent(first: Value, last: Value)
    ensures var (f, l) := CoerceFrameRange(first, last);
            CoerceFrameRange(f, l) == (f, l)
  {
  }

  // ---------------------------------------------------------------------------------------------
  // The options dictionary

  type Options = map<string, Value>

  /** The keys the generator reads back: the frame range and the output file. */
  predicate HasRangeKeys(opts: Options) {
    "startTime" in opts && "endTime" in opts && "filename" in opts
  }

  /** The options a new generator starts with. */
  function DefaultOptions(): (opts: Options)
    ensures HasRangeKeys(opts)
    ensures CoerceFrameRange(opts["startTime"], opts["endTime"]) == (opts["startTime"], opts["endTime"])
  {
    var opts := map[
      "format" := Str("qt"),
      "forceOverwrite" := Bool(true),
      "sequenceTime" := Bool(false),
      "clearCache" := Bool(true),
      "viewer" := Bool(false),
      "showOrnaments" := Bool(false),
      "percent" := Int(100),
      "compression" := Str("png"),
      "quality" := Int(100),
      "offScreen" := Bool(true),
      "framePadding" := Int(4),
      "widthHeight" := Tuple([Int(1280), Int(720)]),
      "filename" := Str(""),
      "startTime" := Int(0),
      "endTime" := Int(0)
    ];
    opts
  }

  /** A new generator's range is 0..0, its file name empty, padding 4 and resolution 1280 x 720. */
  lemma DefaultValues()
    ensures DefaultOptions()["startTime"] == Int(0) && DefaultOptions()["endTime"] == Int(0)
    ensures DefaultOptions()["filename"] == Str("")
    ensures "framePadding" in DefaultOptions() && DefaultOptions()["framePadding"] == Int(4)
    ensures "widthHeight" in DefaultOptions() && DefaultOptions()["widthHeight"] == Tuple([Int(1280), Int(720)])
  {
  }

  /** The options after `set_frame_range(first, last)`. */
  function WithFrameRange(opts: Options, first: Value, last: Value): (r: Options)
    ensures r.Keys == opts.Keys + {"startTime", "endTime"}
    ensures (r["startTime"], r["endTime"]) == CoerceFrameRange(first, last)
    ensures forall k :: k in opts && k != "startTime" && k != "endTime" ==> r[k] == opts[k]
  {
    var range := CoerceFrameRange(first, last);
    opts["startTime" := range.0]["endTime" := range.1]
  }

  /** Python truthiness, as `if path:` tests it. */
  predicate Truthy(v: Value) {
    match v
    case NoneValue => false
    case Bool(b) => b
    case Int(i) => i != 0
    case Float(x) => x != 0.0
    case Str(s) => s != ""
    case List(items) => items != []
    case Tuple(items) => items != []
  }

  /** The options after the range-merging part of `run`: a missing frame is taken from the current range. */
  function RangedOptions(opts: Options, first: Value, last: Value): (r: Options)
    requires HasRangeKeys(opts)
    ensures r.Keys == opts.Keys
  {
    if first != NoneValue && last != NoneValue then WithFrameRange(opts, first, last)
    else if first != NoneValue then WithFrameRange(opts, first, opts["endTime"])
    else if last != NoneValue then WithFrameRange(opts, opts["startTime"], last)
    else opts
  }

  /** The options after the range- and path-merging part of `run(path, first_frame, last_frame)`. */
  function RunOptions(opts: Options, path: Value, first: Value, last: Value): (r: Options)
    requires HasRangeKeys(opts)
    ensures r.Keys == opts.Keys
  {
    var ranged := RangedOptions(opts, first, last);
    if Truthy(path) then ranged["filename" := path] else ranged
  }

  /**
   * With only a first frame, the range becomes the coercion of (first, current end): an integer
   * end is kept when the first frame does not exceed it, and swapped to the start when it does.
   */
  lemma RunFirstFrameOnly(opts: Options, path: Value, first: Value)
    requires HasRangeKeys(opts) && first != NoneValue
    ensures var r := RunOptions(opts, path, first, NoneValue);
            && r["startTime"] == CoerceFrameRange(first, opts["endTime"]).0
            && r["endTime"] == CoerceFrameRange(first, opts["endTime"]).1
            && (opts["endTime"].Int? && ToInt(first).Some? ==>
                  if ToInt(first).value <= opts["endTime"].i
                  then r["startTime"] == Int(ToInt(first).value) && r["endTime"] == opts["endTime"]
                  else r["startTime"] == opts["endTime"] && r["endTime"] == Int(ToInt(first).value))
  {
    var ranged := WithFrameRange(opts, first, opts["endTime"]);
    var r := RunOptions(opts, path, first, NoneValue);
    assert r == if Truthy(path) then ranged["filename" := path] else ranged;
    assert r["startTime"] == ranged["startTime"] && r["endTime"] == ranged["endTime"];
  }

  /**
   * With only a last frame, the range becomes the coercion of (current start, last): an integer
   * start is kept when the last frame is not below it, and swapped to the end when it is.
   */
  lemma RunLastFrameOnly(opts: Options, path: Value, last: Value)
    requires HasRangeKeys(opts) && last != NoneValue
    ensures var r := RunOptions(opts, path, NoneValue, last);
            && r["startTime"] == CoerceFrameRange(opts["startTime"], last).0
            && r["endTime"] == CoerceFrameRange(opts["startTime"], last).1
            && (opts["startTime"].Int? && ToInt(last).Some? ==>
                  if opts["startTime"].i <= ToInt(last).value
                  then r["startTime"] == opts["startTime"] && r["endTime"] == Int(ToInt(last).value)
                  else r["startTime"] == Int(ToInt(last).value) && r["endTime"] == opts["startTime"])
  {
    var ranged := WithFrameRange(opts, opts["startTime"], last);
    var r := RunOptions(opts, path, NoneValue, last);
    assert r == if Truthy(path) then ranged["filename" := path] else ranged;
    assert r["startTime"] == ranged["startTime"] && r["endTime"] == ranged["endTime"];
  }

  /** With both frames the range is their coercion; with neither it is left as it was. */
  lemma RunRangeCases(opts: Options, path: Value, first: Value, last: Value)
    requires HasRangeKeys(opts)
    ensures var r := RunOptions(opts, path, first, last);
            && (first != NoneValue && last != NoneValue ==>
                  (r["startTime"], r["endTime"]) == CoerceFrameRange(first, last))
            && (first == NoneValue && last == NoneValue ==>
                  r["startTime"] == opts["startTime"] && r["endTime"] == opts["endTime"])
  {
  }

  /**
   * `run` overwrites the file name exactly when `path` is truthy, and no option other than the
   * range and the file name changes.
   */
  lemma RunPathAndFrame(opts: Options, path: Value, first: Value, last: Value)
    requires HasRangeKeys(opts)
    ensures var r := RunOptions(opts, path, first, last);
            && (Truthy(path) ==> r["filename"] == path)
            && (!Truthy(path) ==> r["filename"] == opts["filename"])
            && forall k :: k in opts && k != "startTime" && k != "endTime" && k != "filename" ==> r[k] == opts[k]
  {
  }

  // ---------------------------------------------------------------------------------------------
  // The generator object

  class PlayblastGenerator {
    var options: Options

    /** The keys the getters read are always present. */
    predicate Valid()
      reads this
    {
      HasRangeKeys(options)
    }

    /** `__init__`: the default options. */
    constructor()
      ensures Valid()
      ensures options == DefaultOptions()
    {
      options := DefaultOptions();
    }

    /** `get_frame_range`: the stored start and end. */
    function GetFrameRange(): (r: (Value, Value))
      reads this
      requires Valid()
      ensures r.0 == options["startTime"] && r.1 == options["endTime"]
    {
      (options["startTime"], options["endTime"])
    }

    /** `set_frame_range`: store the coerced pair; every other option is unchanged. */
    method SetFrameRange(first: Value, last: Value)
      requires Valid()
      modifies this
      ensures Valid()
      ensures options == WithFrameRange(old(options), first, last)
      ensures GetFrameRange() == CoerceFrameRange(first, last)
    {
      var range := CoerceFrameRange(first, last);
      options := options["startTime" := range.0];
      options := options["endTime" := range.1];
    }

    /** The `frame_range` setter: a list or tuple of exactly two values sets the range; anything else is ignored. */
    method AssignFrameRange(value: Value)
      requires Valid()
      modifies this
      ensures Valid()
      ensures (value.List? || value.Tuple?) && |value.items| == 2 ==>
                options == WithFrameRange(old(options), value.items[0], value.items[1])
      ensures !((value.List? || value.Tuple?) && |value.items| == 2) ==> options == old(options)
    {
      if !(value.List? || value.Tuple?) || |value.items| != 2 {
        return;
      }
      SetFrameRange(value.items[0], value.items[1]);
    }

    /**
     * The option-merging part of `run`: set the range from whichever frames are given, filling a
     * missing one from the current range, then take `path` as the file name when it is truthy.
     */
    method Run(path: Value := NoneValue, first: Value := NoneValue, last: Value := NoneValue)
      requires Valid()
      modifies this
      ensures Valid()
      ensures options == RunOptions(old(options), path, first, last)
    {
      ghost var start := options;
      if first != NoneValue && last != NoneValue {
        SetFrameRange(first, last);
      } else if first != NoneValue {
        var curLast := GetFrameRange().1;
        SetFrameRange(first, curLast);
      } else if last != NoneValue {
        var curFirst := GetFrameRange().0;
        SetFrameRange(curFirst, last);
      }
      ghost var ranged := RangedOptions(start, first, last);
      assert options == ranged;
      if Truthy(path) {
        options := options["filename" := path];
        assert options == ranged["filename" := path];
      }
      assert RunOptions(start, path, first, last) == if Truthy(path) then ranged["filename" := path] else ranged;
    }
  }
}
