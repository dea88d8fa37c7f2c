/** Payload normalisation: the snapshot carries several datasets as JSON text
    inside JSON (a second parse is needed), others as arrays already decoded.

    `NormalizeArray` is the guarded form the forecast chart uses
    (enhancement.js:83-93 and 133-143): it never fails.  `JsObject` is a
    dataset object whose values the equity and seasonal charts overwrite, one
    key after another, with their unguarded parse (enhancement.js:222-224 and
    299-301): the first value that does not parse throws and leaves the object half converted. */
module Payload {
  import opened Results
  import opened Js
  import Lists

  /** The array a payload field denotes: a text is parsed, an array is taken as
      it is, and a failed parse, a text holding something other than an
      array, or any other value gives the empty array. */
  function NormalizeArray(raw: Option<Json>, env: Builtins): (r: seq<Json>)
    ensures raw.Some? && raw.value.JArr? ==> r == raw.value.items
    ensures raw.Some? && raw.value.JStr? && env.parseJson(raw.value.s).Some? && env.parseJson(raw.value.s).value.JArr?
      ==> r == env.parseJson(raw.value.s).value.items
    ensures r != [] ==>
      raw == Some(JArr(r)) || (raw.Some? && raw.value.JStr? && env.parseJson(raw.value.s) == Some(JArr(r)))
  {
    var parsed :=
      match raw
      case Some(JStr(s)) => (match env.parseJson(s) case Some(j) => j case None => JArr([]))
      case Some(JArr(xs)) => JArr(xs)
      case _ => JArr([]);
    if parsed.JArr? then parsed.items else []
  }

  /** Normalising what normalisation produced changes nothing. */
  lemma NormalizeIdempotent(raw: Option<Json>, env: Builtins)
    ensures NormalizeArray(Some(JArr(NormalizeArray(raw, env))), env) == NormalizeArray(raw, env)
  {
  }

  /** `o[k] = JSON.parse(o[k])` for one property. */
  function ParseEntry(p: (string, Json), env: Builtins): (r: Result<(string, Json)>)
    ensures r.Ok? ==> r.value.0 == p.0 && JsonParse(Some(p.1), env) == Ok(r.value.1)
    ensures r.Err? ==> JsonParse(Some(p.1), env).Err? && r == Err(JsonParse(Some(p.1), env).failure)
  {
    var v :- JsonParse(Some(p.1), env);
    Ok((p.0, v))
  }

  /** What the object holds once every value has been parsed, or the first failure. */
  function ParsedEntries(e: Entries, env: Builtins): Result<Entries>
  {
    Lists.MapResult(e, p => ParseEntry(p, env))
  }

  /** A dataset object whose properties are overwritten in place. */
  class JsObject {
    var entries: Entries

    constructor (entries: Entries)
      ensures this.entries == entries
    {
      this.entries := entries;
    }

    /** `Object.keys(o).forEach(k => { o[k] = JSON.parse(o[k]); })`: keys keep
        their order; on a failure at key `j` the keys before it hold parsed
        values and the rest are untouched. */
    method ParseValuesInPlace(env: Builtins) returns (failedAt: Option<nat>)
      modifies this
      ensures Keys(entries) == Keys(old(entries))
      ensures failedAt.None? <==> ParsedEntries(old(entries), env).Ok?
      ensures failedAt.None? ==> entries == ParsedEntries(old(entries), env).value
      ensures failedAt.Some? ==>
        && failedAt.value < |entries|
        && ParseEntry(old(entries)[failedAt.value], env).Err?
        && (forall i :: 0 <= i < failedAt.value ==> ParseEntry(old(entries)[i], env) == Ok(entries[i]))
        && (forall i :: failedAt.value <= i < |entries| ==> entries[i] == old(entries)[i])
        && ParsedEntries(old(entries), env) == Err(ParseEntry(old(entries)[failedAt.value], env).failure)
    {
      var i := 0;
      while i < |entries|
        invariant 0 <= i <= |entries| == |old(entries)|
        invariant forall j :: 0 <= j < i ==> ParseEntry(old(entries)[j], env) == Ok(entries[j])
        invariant forall j :: i <= j < |entries| ==> entries[j] == old(entries)[j]
      {
        var p := ParseEntry(entries[i], env);
        if p.Err? {
          assert !ParseEntry(old(entries)[i], env).Ok?;
          assert forall j :: 0 <= j < i ==> old(entries)[..i][j] == old(entries)[j];
          Lists.MapResultFirstError(old(entries), p => ParseEntry(p, env), i);
          return Some(i);
        }
        entries := entries[i := p.value];
        i := i + 1;
      }
      assert entries == ParsedEntries(old(entries), env).value;
      return None;
    }
  }
}
