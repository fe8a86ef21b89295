/**
 * The rewriting of the keyword arguments at the start of `handleVerb`,
 * before the request is made: a `from_` argument (a Python keyword
 * cannot be `from`) is encoded as a datestamp and stored under `from`,
 * and an `until` argument is encoded in place. `V` stands for the
 * Python values a caller passes, `encode` for
 * `common.datetime_to_datestamp`, and `None` for Python's `None`.
 */
module VerbArguments {
  import opened Wrappers

  /** `kw.get(key)`: `None` both for a missing key and for a `None` value. */
  function Get<V>(kw: map<string, Option<V>>, key: string): Option<V> {
    if key in kw then kw[key] else None
  }

  /** The arguments after the rewriting. */
  function Rewritten<V>(kw: map<string, Option<V>>, encode: V -> V): (r: map<string, Option<V>>)
    ensures Get(kw, "from_").Some? ==>
              "from_" !in r && r.Keys == kw.Keys - {"from_"} + {"from"}
              && r["from"] == Some(encode(kw["from_"].value))
    ensures Get(kw, "from_").None? ==>
              r.Keys == kw.Keys && ("from" in kw ==> r["from"] == kw["from"])
              && ("from_" in kw ==> r["from_"] == kw["from_"])
    ensures Get(kw, "until").Some? ==> r["until"] == Some(encode(kw["until"].value))
    ensures Get(kw, "until").None? ==> ("until" in r <==> "until" in kw) && ("until" in kw ==> r["until"] == kw["until"])
    ensures forall k :: k in kw && k != "from" && k != "from_" && k != "until" ==> k in r && r[k] == kw[k]
    ensures forall k :: k in r && k != "from" ==> k in kw
  {
    var afterFrom :=
      if Get(kw, "from_").Some? then (kw - {"from_"})["from" := Some(encode(kw["from_"].value))] else kw;
    if Get(afterFrom, "until").Some? then afterFrom["until" := Some(encode(afterFrom["until"].value))]
    else afterFrom
  }

  /** The `kw` dictionary that `handleVerb` receives and changes in place. */
  class Keywords<V> {
    var kw: map<string, Option<V>>

    constructor (kw: map<string, Option<V>>)
      ensures this.kw == kw
    {
      this.kw := kw;
    }

    /** Lines 31-38 of `handleVerb`, in their order: store `from`, delete
        `from_`, then replace `until`. */
    method EncodeDatestamps(encode: V -> V)
      modifies this
      ensures kw == Rewritten(old(kw), encode)
    {
      var from_ := Get(kw, "from_");
      if from_.Some? {
        kw := kw["from" := Some(encode(from_.value))];
        kw := kw - {"from_"};
      }
      var until := Get(kw, "until");
      if until.Some? {
        kw := kw["until" := Some(encode(until.value))];
      }
    }
  }
}
