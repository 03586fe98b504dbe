/**
 The PHP values the client handles: what `json_decode($response, true)`
 yields, and the scalars and arrays callers pass as ids, parameters and
 payloads. JSON objects decode to associative arrays (`Obj`), JSON arrays
 to lists (`Arr`). Alongside the value type sit the three pieces of PHP
 semantics the client relies on: truthiness, string conversion and the
 `isset($v[$key]) && $v[$key] == "<word>"` test.
 */
module Php {
  import opened Wrappers
  import Decimal

  datatype Json =
    | Null
    | Bool(b: bool)
    | Num(n: int)
    | Str(s: string)
    | Arr(items: seq<Json>)
    | Obj(fields: map<string, Json>)

  /** PHP's boolean conversion, as used by `$id ? ... : ''` and `$params ? ... : ''`. */
  predicate Truthy(v: Json) {
    match v
    case Null => false
    case Bool(b) => b
    case Num(n) => n != 0
    case Str(s) => s != "" && s != "0"
    case Arr(items) => |items| > 0
    case Obj(fields) => |fields| > 0
  }

  /** The falsy PHP values, listed independently of `Truthy`. */
  const Falsy: set<Json> := {Null, Bool(false), Num(0), Str(""), Str("0"), Arr([]), Obj(map[])}

  lemma TruthyIffNotFalsy(v: Json)
    ensures Truthy(v) <==> v !in Falsy
  {
    match v
    case Arr(items) =>
      assert |items| == 0 ==> items == [];
    case Obj(fields) =>
      assert |fields| == 0 ==> fields == map[];
    case _ =>
  }

  /** PHP's decimal rendering of an integer. */
  function IntToString(n: int): (s: string)
    ensures |s| >= 1
  {
    if n < 0 then "-" + Decimal.FromNat(-n) else Decimal.FromNat(n)
  }

  /** A rendering opens with a minus sign exactly when the number is negative. */
  lemma SignOfIntToString(n: int)
    ensures IntToString(n)[0] == '-' <==> n < 0
  {
  }

  /** Distinct integers, negative ones included, render as distinct strings. */
  lemma IntToStringInjective(a: int, b: int)
    requires IntToString(a) == IntToString(b)
    ensures a == b
  {
    SignOfIntToString(a);
    SignOfIntToString(b);
    var da := Decimal.FromNat(if a < 0 then -a else a);
    var db := Decimal.FromNat(if b < 0 then -b else b);
    if a < 0 && b < 0 {
      assert da == IntToString(a)[1..];
      assert db == IntToString(b)[1..];
      Decimal.FromNatInjective(-a, -b);
    } else {
      Decimal.FromNatInjective(a, b);
    }
  }

  /**
   PHP's string conversion, as performed by `.` and by `preg_match` on its
   subject. Arrays convert to the word "Array".
   */
  function ToPhpString(v: Json): string {
    match v
    case Null => ""
    case Bool(b) => if b then "1" else ""
    case Num(n) => IntToString(n)
    case Str(s) => s
    case Arr(_) => "Array"
    case Obj(_) => "Array"
  }

  /** Every conversion except that of a string is made of digits, a sign or "Array". */
  lemma NonStringHasNoUpperT(v: Json)
    requires !v.Str?
    ensures 'T' !in ToPhpString(v)
  {
    if v.Num? {
      var d := Decimal.FromNat(if v.n < 0 then -v.n else v.n);
      assert forall k :: 0 <= k < |d| ==> d[k] != 'T';
      assert 'T' !in d;
    }
  }

  /**
   `$v[$key]` under `isset`: present only when `v` is an associative array
   holding `key` with a non-null value. Decoded lists have integer keys
   only, and scalars have no string keys, so both yield nothing.
   */
  function IssetField(v: Json, key: string): (r: Option<Json>)
    ensures r.Some? <==> v.Obj? && key in v.fields && v.fields[key] != Null
    ensures r.Some? ==> r.value == v.fields[key]
  {
    if v.Obj? && key in v.fields && v.fields[key] != Null then Some(v.fields[key]) else None
  }

  /** A non-empty run of letters: a string PHP never reads as a number. */
  predicate IsWord(w: string) {
    |w| >= 1 && forall k :: 0 <= k < |w| ==> ('a' <= w[k] <= 'z' || 'A' <= w[k] <= 'Z')
  }

  /**
   PHP 8's loose `$v == $word` for a word literal: a string compares as a
   string; a boolean compares with the word's truth value, which is true;
   a number compares as its rendering, which is never a word; an array
   never equals a string; null equals only "".
   */
  predicate LooseEqualsWord(v: Json, word: string)
    requires IsWord(word)
  {
    match v
    case Str(s) => s == word
    case Bool(b) => b
    case _ => false
  }

  /** Exactly the string `word` itself and `true` are loosely equal to `word`. */
  lemma LooseEqualsWordIff(v: Json, word: string)
    requires IsWord(word)
    ensures LooseEqualsWord(v, word) <==> v == Str(word) || v == Bool(true)
  {
  }
}
