/**
 * Normalisation of the receiver's options when it is built: the `maxBytes`
 * megabyte shorthand ("15m" means 15 * 1024 * 1024 bytes) and the defaults
 * applied to options the caller left undefined.
 */
module UploadLimit {
  import opened Wrappers
  import opened JsValues

  /** Bytes in one megabyte, as the shorthand counts them. */
  const Megabyte: nat := 1024 * 1024

  /** The upload limit used when the caller gives none. */
  const DefaultMaxBytes: nat := 15000000

  /** The suffix letter of the shorthand; the `i` flag accepts both cases. */
  predicate IsMegabyteSuffix(c: char)
  {
    c == 'm' || c == 'M'
  }

  /**
   * The pattern `(\d+)m` with the `i` flag matches `s` at offset `i`, its
   * group capturing `s[i..j]`: one or more digits followed by an `m` or `M`.
   */
  ghost predicate ShorthandAt(s: string, i: int, j: int)
  {
    0 <= i < j < |s| && (forall k :: i <= k < j ==> IsDigit(s[k])) && IsMegabyteSuffix(s[j])
  }

  ghost predicate HasShorthand(s: string)
  {
    exists i, j :: ShorthandAt(s, i, j)
  }

  /** The match `String.prototype.match` reports: the one starting leftmost. */
  ghost predicate LeftmostShorthand(s: string, i: int, j: int)
  {
    ShorthandAt(s, i, j) && forall a, b :: 0 <= a < i ==> !ShorthandAt(s, a, b)
  }

  /** The end of the run of digits starting at `i`. */
  function DigitRunEnd(s: string, i: nat): (e: nat)
    requires i <= |s|
    ensures i <= e <= |s|
    ensures forall k :: i <= k < e ==> IsDigit(s[k])
    ensures e == |s| || !IsDigit(s[e])
    decreases |s| - i
  {
    if i == |s| || !IsDigit(s[i]) then i else DigitRunEnd(s, i + 1)
  }

  /**
   * Scans `s` from offset `i` for the leftmost shorthand match, skipping a
   * whole run of digits at a time when the character after it is not `m`.
   */
  function FindShorthand(s: string, i: nat): (r: Option<(nat, nat)>)
    requires i <= |s|
    ensures r.Some? ==> i <= r.value.0 && ShorthandAt(s, r.value.0, r.value.1)
    ensures r.Some? ==> forall a, b :: i <= a < r.value.0 ==> !ShorthandAt(s, a, b)
    ensures r.None? ==> forall a, b :: i <= a ==> !ShorthandAt(s, a, b)
    decreases |s| - i
  {
    if i == |s| then None
    else if !IsDigit(s[i]) then
      assert forall b :: !ShorthandAt(s, i, b);
      FindShorthand(s, i + 1)
    else
      var e := DigitRunEnd(s, i);
      if e < |s| && IsMegabyteSuffix(s[e]) then Some((i, e))
      else
        assert forall a, b :: i <= a < e ==> !ShorthandAt(s, a, b) by {
          forall a, b | i <= a < e && e < b < |s| ensures !ShorthandAt(s, a, b) {
            assert !IsDigit(s[e]);
          }
        }
        FindShorthand(s, e)
  }

  /** The leftmost match starts a run of digits: the capture is the whole run. */
  lemma LeftmostCapturesWholeRun(s: string, i: int, j: int)
    requires LeftmostShorthand(s, i, j)
    ensures i == 0 || !IsDigit(s[i - 1])
  {
    if i > 0 && IsDigit(s[i - 1]) {
      assert ShorthandAt(s, i - 1, j);
    }
  }

  /**
   * The number of bytes a megabyte shorthand in `s` stands for, if `s` has
   * one: the digits of the leftmost match times 1024 * 1024.
   */
  function MegabyteShorthand(s: string): (r: Option<nat>)
    ensures r.None? <==> !HasShorthand(s)
    ensures r.Some? ==> exists i, j :: LeftmostShorthand(s, i, j) && r.value == DecimalValue(s[i..j]) * Megabyte
  {
    match FindShorthand(s, 0)
    case None => None
    case Some((i, j)) =>
      assert LeftmostShorthand(s, i, j);
      Some(DecimalValue(s[i..j]) * 1024 * 1024)
  }

  /**
   * Step one of normalising `maxBytes`: a truthy value whose string form
   * holds a shorthand becomes that many bytes; any other value is kept.
   */
  function ParseMaxBytes(v: JsValue): (r: JsValue)
    ensures Truthy(v) && HasShorthand(ToJsString(v)) ==>
              exists i, j :: LeftmostShorthand(ToJsString(v), i, j)
                          && r == Num(DecimalValue(ToJsString(v)[i..j]) * Megabyte)
    ensures !(Truthy(v) && HasShorthand(ToJsString(v))) ==> r == v
  {
    if Truthy(v) then
      match MegabyteShorthand(ToJsString(v))
      case Some(n) => Num(n)
      case None => v
    else v
  }

  /** A number's string form holds no `m`, so a numeric limit is never rewritten. */
  lemma NumberIsNotShorthand(n: int)
    ensures !HasShorthand(NumberToString(n))
  {
    var s := NumberToString(n);
    forall i, j | 0 <= j < |s| ensures !ShorthandAt(s, i, j) {
      assert IsDigit(s[j]) || s[j] == '-';
    }
  }

  lemma NumericLimitKept(n: int)
    ensures ParseMaxBytes(Num(n)) == Num(n)
  {
    NumberIsNotShorthand(n);
  }

  /** The options the receiver reads. */
  datatype Options = Options(maxBytes: JsValue, dirname: JsValue, dirpath: JsValue, filename: JsValue)

  /** `{}`: the options used when the caller passes none. */
  const NoOptions := Options(Undefined, Undefined, Undefined, Undefined)

  /**
   * `_.defaults` fills a property only when it is `undefined`; `null`, `0`
   * and `""` count as supplied.
   */
  function Default(v: JsValue, fallback: JsValue): (r: JsValue)
    ensures !v.Undefined? ==> r == v
    ensures v.Undefined? ==> r == fallback
    ensures r.Undefined? <==> v.Undefined? && fallback.Undefined?
  {
    if v.Undefined? then fallback else v
  }

  /**
   * The options as the receiver holds them once built: `maxBytes` parsed,
   * then the defaults for `maxBytes` and `dirname` filled in.
   */
  function Configure(supplied: Option<Options>): (r: Options)
    ensures var o := if supplied.Some? then supplied.value else NoOptions;
      && (o.maxBytes.Undefined? ==> r.maxBytes == Num(DefaultMaxBytes))
      && (!o.maxBytes.Undefined? ==> r.maxBytes == ParseMaxBytes(o.maxBytes))
      && (o.dirname.Undefined? ==> r.dirname == o.dirpath)
      && (!o.dirname.Undefined? ==> r.dirname == o.dirname)
      && r.dirpath == o.dirpath && r.filename == o.filename
  {
    var o := if supplied.Some? then supplied.value else NoOptions;
    var o' := o.(maxBytes := ParseMaxBytes(o.maxBytes));
    o'.(maxBytes := Default(o'.maxBytes, Num(DefaultMaxBytes)), dirname := Default(o'.dirname, o.dirpath))
  }

  /**
   * A limit written as a numeral followed by `m` or `M` (and anything
   * after it, such as "mb") is that many megabytes.
   */
  lemma ShorthandLimit(n: nat, suffix: char, rest: string)
    requires IsMegabyteSuffix(suffix)
    ensures ParseMaxBytes(Str(NatToDecimal(n) + [suffix] + rest)) == Num(n * Megabyte)
  {
    var digits := NatToDecimal(n);
    var s := digits + [suffix] + rest;
    assert s[..|digits|] == digits;
    assert ShorthandAt(s, 0, |digits|) by {
      assert s[|digits|] == suffix;
      assert forall k :: 0 <= k < |digits| ==> s[k] == digits[k];
    }
    MatchAtStart(s, |digits|);
    DecimalRoundTrip(n);
  }

  /** A match at offset 0 is the one the scan reports, with its whole capture. */
  lemma MatchAtStart(s: string, j: int)
    requires ShorthandAt(s, 0, j)
    ensures MegabyteShorthand(s) == Some(DecimalValue(s[..j]) * Megabyte)
  {
    var r := FindShorthand(s, 0);
    assert r.Some? && r.value.0 == 0;
    var e := r.value.1;
    assert e == j;
    assert s[0..e] == s[..j];
  }

  /** "15m", "15M" and "15mb" all give 15728640 bytes. */
  lemma FifteenMegabytes()
    ensures ParseMaxBytes(Str("15m")) == Num(15728640)
    ensures ParseMaxBytes(Str("15M")) == Num(15728640)
    ensures ParseMaxBytes(Str("15mb")) == Num(15728640)
  {
    FifteenWithSuffix('m', "");
    assert "15" + ['m'] + "" == "15m";
    FifteenWithSuffix('M', "");
    assert "15" + ['M'] + "" == "15M";
    FifteenWithSuffix('m', "b");
    assert "15" + ['m'] + "b" == "15mb";
  }

  lemma FifteenWithSuffix(suffix: char, rest: string)
    requires IsMegabyteSuffix(suffix)
    ensures ParseMaxBytes(Str("15" + [suffix] + rest)) == Num(15728640)
  {
    assert NatToDecimal(15) == "15";
    ShorthandLimit(15, suffix, rest);
  }

  /**
   * Only the digits right before the `m` are read: "1.5m" is 5 megabytes,
   * because `.` ends the first run of digits.
   */
  lemma FractionReadsTrailingDigits()
    ensures ParseMaxBytes(Str("1.5m")) == Num(5 * Megabyte)
  {
    ShorthandLimit(5, 'm', "");
    assert "1.5m"[2..] == NatToDecimal(5) + ['m'] + "";
    assert FindShorthand("1.5m", 2) == Some((2, 3));
    assert FindShorthand("1.5m", 0) == Some((2, 3));
    assert "1.5m"[2..3] == "5";
  }

  /** A limit with no digits-then-`m` in its string form is left as given. */
  lemma PlainLimitsKept()
    ensures ParseMaxBytes(Str("2048")) == Str("2048")
    ensures ParseMaxBytes(Str("10kb")) == Str("10kb")
    ensures ParseMaxBytes(Num(2048)) == Num(2048)
  {
    forall i, j | 0 <= j < |"2048"| ensures !ShorthandAt("2048", i, j) {
      assert !IsMegabyteSuffix("2048"[j]);
    }
    forall i, j | 0 <= j < |"10kb"| ensures !ShorthandAt("10kb", i, j) {
      assert !IsMegabyteSuffix("10kb"[j]);
    }
    NumericLimitKept(2048);
  }

  /** With no options at all, the limit is 15000000 bytes. */
  lemma DefaultLimit()
    ensures Configure(None).maxBytes == Num(15000000)
  {
  }
}
