/**
 * Reading one field of a request payload the way a DRF serializer field
 * derived from a model column reads it: an absent key keeps the current
 * value; a present one must have the field's type and pass its checks
 * (None is a validation error, which the views answer with 400). A text
 * field trims surrounding whitespace first (trim_whitespace is on by
 * default) and applies its blank and length checks to what remains,
 * which is also what it stores.
 */
module Payloads {
  import opened Wrappers
  import opened Records
  import Email

  /** The payload with only the keys in `keys`. */
  function Restrict(payload: Row, keys: set<string>): (r: Row)
    ensures forall k :: k in r <==> k in payload && k in keys
    ensures forall k :: k in r ==> r[k] == payload[k]
  {
    map k | k in payload && k in keys :: payload[k]
  }

  /**
   * The text a character field keeps of `s`: its surrounding whitespace trimmed.
   * Email.StripRemovesOuterSpace pins the slice kept.
   */
  function Cleaned(s: string): (r: string)
    ensures Email.Stripped(r) && |r| <= |s|
    ensures Email.Stripped(s) ==> r == s
  {
    Email.Strip(s)
  }

  /** A value a character field accepts: text that is non-blank once trimmed unless blanks are allowed, within `limit` once trimmed. */
  predicate TextOk(v: Value, blankOk: bool, limit: Option<nat>) {
    && v.Text?
    && (blankOk || Cleaned(v.s) != "")
    && (limit.None? || |Cleaned(v.s)| <= limit.value)
  }

  /** A column value rendered back as a payload value. */
  function TextValue(s: Option<string>): (v: Value)
    ensures s.None? <==> v.Null?
    ensures s.Some? ==> v == Text(s.value)
  {
    if s.Some? then Text(s.value) else Null
  }

  function IntValue(n: Option<int>): (v: Value)
    ensures n.None? <==> v.Null?
    ensures n.Some? ==> v == Int(n.value)
  {
    if n.Some? then Int(n.value) else Null
  }

  /** A required-when-present character field; the stored value is the trimmed text. */
  function ReadText(payload: Row, f: string, current: string, blankOk: bool, limit: Option<nat>): (r: Option<string>)
    ensures r.Some? <==> (f in payload ==> TextOk(payload[f], blankOk, limit))
    ensures r.Some? && f !in payload ==> r.value == current
    ensures r.Some? && f in payload ==> r.value == Cleaned(payload[f].s) && Email.Stripped(r.value)
  {
    if f !in payload then Some(current)
    else if TextOk(payload[f], blankOk, limit) then Some(Cleaned(payload[f].s))
    else None
  }

  function ReadInt(payload: Row, f: string, current: int): (r: Option<int>)
    ensures r.Some? <==> (f in payload ==> payload[f].Int?)
    ensures r.Some? && f !in payload ==> r.value == current
    ensures r.Some? && f in payload ==> payload[f] == Int(r.value)
  {
    if f !in payload then Some(current)
    else if payload[f].Int? then Some(payload[f].i)
    else None
  }

  /** A nullable character field with blanks allowed: null is stored as null, text as its trimmed form. */
  function ReadNullableText(payload: Row, f: string, current: Option<string>, limit: Option<nat>): (r: Option<Option<string>>)
    ensures r.Some? <==> (f in payload ==> payload[f].Null? || TextOk(payload[f], true, limit))
    ensures r.Some? && f !in payload ==> r.value == current
    ensures r.Some? && f in payload ==> r.value == (if payload[f].Null? then None else Some(Cleaned(payload[f].s)))
  {
    if f !in payload then Some(current)
    else if payload[f].Null? then Some(None)
    else if TextOk(payload[f], true, limit) then Some(Some(Cleaned(payload[f].s)))
    else None
  }

  function ReadNullableInt(payload: Row, f: string, current: Option<int>): (r: Option<Option<int>>)
    ensures r.Some? <==> (f in payload ==> payload[f].Null? || payload[f].Int?)
    ensures r.Some? && f !in payload ==> r.value == current
    ensures r.Some? && f in payload ==> payload[f] == IntValue(r.value)
  {
    if f !in payload then Some(current)
    else if payload[f].Null? then Some(None)
    else if payload[f].Int? then Some(Some(payload[f].i))
    else None
  }

  function ReadFlag(payload: Row, f: string, current: bool): (r: Option<bool>)
    ensures r.Some? <==> (f in payload ==> payload[f].Flag?)
    ensures r.Some? && f !in payload ==> r.value == current
    ensures r.Some? && f in payload ==> payload[f] == Flag(r.value)
  {
    if f !in payload then Some(current)
    else if payload[f].Flag? then Some(payload[f].b)
    else None
  }

  /** A nullable foreign key: null, or the id of an existing row, which is what gets stored. */
  function ReadNullableRef(payload: Row, f: string, current: Option<nat>, ids: set<nat>): (r: Option<Option<nat>>)
    ensures r.Some? <==> (f in payload ==> payload[f].Null? || (payload[f].Int? && payload[f].i >= 0 && payload[f].i in ids))
    ensures r.Some? && f !in payload ==> r.value == current
    ensures r.Some? && f in payload ==> payload[f] == IntValue(r.value)
    ensures r.Some? && r.value.Some? && f in payload ==> r.value.value in ids
  {
    if f !in payload then Some(current)
    else if payload[f].Null? then Some(None)
    else if payload[f].Int? && payload[f].i >= 0 && payload[f].i in ids then Some(Some(payload[f].i))
    else None
  }
}
