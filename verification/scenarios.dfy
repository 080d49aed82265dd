/** The four on-behalf-of scenarios of the client's test suite, each run on a
    freshly constructed client. */
module Scenarios {
  import opened JavaLang
  import opened Uuid
  import opened OnBehalfOf

  const Server := "http://localhost:5555"
  const Obo := "c6ece846-6df1-461d-acaa-b42a6aa74045"
  const NestedObo := "f57b2d33-652c-4589-a8ff-7762add2706d"
  const NotAnId := "Richard Nienaber"

  lemma OboIsUuid()
    ensures IsUuid(Obo)
  {
    assert IsHexGroup("c6ece846", 8) && IsHexGroup("6df1", 4) && IsHexGroup("461d", 4);
    assert IsHexGroup("acaa", 4) && IsHexGroup("b42a6aa74045", 12);
    JoinedGroupsAreUuid("c6ece846", "6df1", "461d", "acaa", "b42a6aa74045");
    assert Join("c6ece846", "6df1", "461d", "acaa", "b42a6aa74045") == Obo;
  }

  lemma NestedOboIsUuid()
    ensures IsUuid(NestedObo)
  {
    assert IsHexGroup("f57b2d33", 8) && IsHexGroup("652c", 4) && IsHexGroup("4589", 4);
    assert IsHexGroup("a8ff", 4) && IsHexGroup("7762add2706d", 12);
    JoinedGroupsAreUuid("f57b2d33", "652c", "4589", "a8ff", "7762add2706d");
    assert Join("f57b2d33", "652c", "4589", "a8ff", "7762add2706d") == NestedObo;
  }

  /** The slot is set while the work runs and cleared when it is done. */
  lemma SetsTheValueAndRemovesItWhenDone()
    ensures NewClient(Server).onBehalfOf == Null
    ensures Enter(NewClient(Server), Obo, Observe(Done)).outcome == Ok
    ensures Enter(NewClient(Server), Obo, Observe(Done)).trace == [Saw(NonNull(Obo))]
    ensures Enter(NewClient(Server), Obo, Observe(Done)).client.onBehalfOf == Null
  {
    OboIsUuid();
    EnterFollowsScoped(NewClient(Server), Obo, Observe(Done));
  }

  /** A `CurrencyCloudException` thrown after reading the slot reaches the
      caller, and the slot is cleared all the same. */
  lemma StillRemovesTheValueOnError(e: WorkError)
    ensures Enter(NewClient(Server), Obo, Observe(Throw(e))).outcome == WorkFailed(e)
    ensures Enter(NewClient(Server), Obo, Observe(Throw(e))).trace == [Saw(NonNull(Obo)), Raised(e)]
    ensures Enter(NewClient(Server), Obo, Observe(Throw(e))).client.onBehalfOf == Null
  {
    OboIsUuid();
    EnterFollowsScoped(NewClient(Server), Obo, Observe(Throw(e)));
  }

  /** A nested call fails with the nesting message, its work never runs, and
      the slot is cleared after the outer call. */
  lemma PreventsReentrantUsage(e: WorkError)
    ensures Enter(NewClient(Server), Obo, Nest(NestedObo, Throw(e), Done)).outcome.IllegalState?
    ensures Contains(Enter(NewClient(Server), Obo, Nest(NestedObo, Throw(e), Done)).outcome.msg, "Can't nest on-behalf-of calls")
    ensures Raised(e) !in Enter(NewClient(Server), Obo, Nest(NestedObo, Throw(e), Done)).trace
    ensures Enter(NewClient(Server), Obo, Nest(NestedObo, Throw(e), Done)).client.onBehalfOf == Null
  {
    OboIsUuid();
    NestedOboIsUuid();
    NestedCallIsRefused(NewClient(Server), Obo, NestedObo, Throw(e));
  }

  /** A name is not an id: the call fails with the format message, the work
      never runs and the slot stays empty. */
  lemma PreventsIllegalIdFormat(e: WorkError)
    ensures Enter(NewClient(Server), NotAnId, Throw(e)).outcome.IllegalArgument?
    ensures Contains(Enter(NewClient(Server), NotAnId, Throw(e)).outcome.msg, "is not a UUID")
    ensures Enter(NewClient(Server), NotAnId, Throw(e)).trace == []
    ensures Enter(NewClient(Server), NotAnId, Throw(e)).client.onBehalfOf == Null
  {
    assert !IsUuid(NotAnId);
  }
}
