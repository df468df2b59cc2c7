/** Outcomes of calls into services this model does not contain (the database,
    file storage, the chat endpoint, the language model): each call is a parameter
    that says how it ended. */
module Common {

  datatype Option<T> = None | Some(value: T)

  /** A call that completed with a value, or the message of the error it raised. */
  datatype Result<T> = Ok(value: T) | Err(message: string)

  /** A call that completed without a value, or failed with a message. */
  datatype Outcome = Done | Failed(message: string)

  /** `f` applied to each element, in order. */
  function MapSeq<A, B>(f: A -> B, s: seq<A>): (r: seq<B>)
    ensures |r| == |s|
    ensures forall i :: 0 <= i < |s| ==> r[i] == f(s[i])
  {
    if s == [] then [] else [f(s[0])] + MapSeq(f, s[1..])
  }

  /** A loop that appends `f(x)` for each element `x`, in order. */
  method MapLoop<A, B>(f: A -> B, s: seq<A>) returns (r: seq<B>)
    ensures r == MapSeq(f, s)
  {
    r := [];
    for i := 0 to |s|
      invariant r == MapSeq(f, s[..i])
    {
      MapSeqSnoc(f, s[..i], s[i]);
      assert s[..i + 1] == s[..i] + [s[i]];
      r := r + [f(s[i])];
    }
    assert s[..|s|] == s;
  }

  /** Mapping one more element appends its image. */
  lemma MapSeqSnoc<A, B>(f: A -> B, s: seq<A>, x: A)
    ensures MapSeq(f, s + [x]) == MapSeq(f, s) + [f(x)]
  {
    var r := MapSeq(f, s + [x]);
    assert forall i :: 0 <= i < |s| ==> (s + [x])[i] == s[i];
  }
}
