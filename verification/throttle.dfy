/**
 Throttle detection on a decoded response, and the wait a throttled
 response asks for. A response is throttled when
 `isset($r['type']) && $r['type'] == "Error"` and
 `isset($r['error']) && $r['error'] == "Throttled"` both hold.
 */
module Throttle {
  import opened Php
  import opened WaitTime

  const ErrorType: string := "Error"
  const ThrottledError: string := "Throttled"

  predicate FieldIs(r: Json, key: string, word: string)
    requires IsWord(word)
  {
    var f := IssetField(r, key);
    f.Some? && LooseEqualsWord(f.value, word)
  }

  /** The check applied to every decoded response before it is returned. */
  predicate IsThrottled(r: Json) {
    FieldIs(r, "type", ErrorType) && FieldIs(r, "error", ThrottledError)
  }

  /**
   The throttled responses are exactly the associative arrays whose `type`
   is "Error" or `true` and whose `error` is "Throttled" or `true`.
   */
  lemma ThrottledShape(r: Json)
    ensures IsThrottled(r) <==>
      && r.Obj?
      && "type" in r.fields && r.fields["type"] in {Str(ErrorType), Bool(true)}
      && "error" in r.fields && r.fields["error"] in {Str(ThrottledError), Bool(true)}
  {
    if r.Obj? && "type" in r.fields {
      LooseEqualsWordIff(r.fields["type"], ErrorType);
    }
    if r.Obj? && "error" in r.fields {
      LooseEqualsWordIff(r.fields["error"], ThrottledError);
    }
  }

  /**
   For the service's own error shape, where both fields hold strings, the
   check is plain string equality on both fields.
   */
  lemma ThrottledStringFields(fields: map<string, Json>, t: string, e: string)
    requires "type" in fields && fields["type"] == Str(t)
    requires "error" in fields && fields["error"] == Str(e)
    ensures IsThrottled(Obj(fields)) <==> t == ErrorType && e == ThrottledError
  {
    ThrottledShape(Obj(fields));
  }

  /** A failed decode (null), a scalar or a list is never throttled. */
  lemma OnlyObjectsThrottled(r: Json)
    requires !r.Obj?
    ensures !IsThrottled(r)
  {
  }

  /** The subject handed to the wait-time parser: `$results['message']`, converted to a string. */
  function Message(r: Json): string {
    if r.Obj? && "message" in r.fields then ToPhpString(r.fields["message"]) else ""
  }

  /**
   The seconds slept before resending after the throttled response `r`.
   A message that is absent or not a string never carries a figure.
   */
  function ThrottleWait(r: Json): (w: nat)
    ensures w >= Margin
    ensures r.Obj? && "message" in r.fields && r.fields["message"].Str? ==>
      w == WaitTime.WaitTime(r.fields["message"].s)
    ensures !(r.Obj? && "message" in r.fields && r.fields["message"].Str?) ==> w == Fallback
  {
    var m := Message(r);
    if !(r.Obj? && "message" in r.fields) then
      NoMatchWithoutUpperT(m);
      WaitTime.WaitTime(m)
    else if !r.fields["message"].Str? then
      NonStringHasNoUpperT(r.fields["message"]);
      NoMatchWithoutUpperT(m);
      WaitTime.WaitTime(m)
    else
      WaitTime.WaitTime(m)
  }
}
