/** The calls made to a scheduler, and what its books have to say after them. */
module CallBook {
  import opened Requests

  datatype Call = Submitted(request: Request) | Completed(id: Id, success: bool) | Cancelled(id: Id)

  predicate Opens(c: Call, id: Id) {
    c.Submitted? && c.request.id == id
  }

  predicate Closes(c: Call, id: Id) {
    !c.Submitted? && c.id == id
  }

  /** The ids that are open after the calls. */
  function OpenIds(calls: seq<Call>): set<Id> {
    if calls == [] then {} else
      var c := calls[|calls|-1];
      var ids := OpenIds(calls[..|calls|-1]);
      if c.Submitted? then ids + {c.request.id} else ids - {c.id}
  }

  function Submissions(calls: seq<Call>): seq<Request> {
    if calls == [] then [] else
      var c := calls[|calls|-1];
      Submissions(calls[..|calls|-1]) + if c.Submitted? then [c.request] else []
  }

  /** How many calls ended that way. */
  function Completions(calls: seq<Call>, success: bool): nat {
    if calls == [] then 0 else
      var c := calls[|calls|-1];
      Completions(calls[..|calls|-1], success) + if c.Completed? && c.success == success then 1 else 0
  }

  function Cancellations(calls: seq<Call>): nat {
    if calls == [] then 0 else
      Cancellations(calls[..|calls|-1]) + if calls[|calls|-1].Cancelled? then 1 else 0
  }

  lemma OneMore(calls: seq<Call>, c: Call)
    ensures OpenIds(calls + [c]) == if c.Submitted? then OpenIds(calls) + {c.request.id} else OpenIds(calls) - {c.id}
    ensures Submissions(calls + [c]) == Submissions(calls) + if c.Submitted? then [c.request] else []
    ensures Completions(calls + [c], true) == Completions(calls, true) + if c.Completed? && c.success then 1 else 0
    ensures Completions(calls + [c], false) == Completions(calls, false) + if c.Completed? && !c.success then 1 else 0
    ensures Cancellations(calls + [c]) == Cancellations(calls) + if c.Cancelled? then 1 else 0
  {
    assert (calls + [c])[..|calls|] == calls;
  }

  /** Call `i` submitted the id, and no later call completed or cancelled it. */
  ghost predicate OpenSince(calls: seq<Call>, i: nat, id: Id) {
    && i < |calls| && Opens(calls[i], id)
    && forall j :: i < j < |calls| ==> !Closes(calls[j], id)
  }

  /** An id is open if and only if it was submitted and neither completed nor
      cancelled since. */
  lemma {:induction false} OpenMeaning(calls: seq<Call>, id: Id)
    ensures id in OpenIds(calls) <==> exists i :: OpenSince(calls, i, id)
    decreases |calls|
  {
    if calls != [] {
      var n := |calls| - 1;
      OpenMeaning(calls[..n], id);
      if i: nat :| OpenSince(calls[..n], i, id) && !Closes(calls[n], id) {
        assert OpenSince(calls, i, id);
      }
      if Opens(calls[n], id) {
        assert OpenSince(calls, n, id);
      }
      if i: nat :| OpenSince(calls, i, id) && i < n {
        assert OpenSince(calls[..n], i, id);
      }
    }
  }
}
