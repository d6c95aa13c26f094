/** Reset of the live expectations to the ones loaded from the expectation
    files at start-up. */
module ReloadExpectations {
  import opened Domain
  import opened Storage

  class ReloadPreconfiguredExpectationsAction {
    const expectationStorage: ExpectationStorage
    const expectationBackup: ExpectationStorage

    constructor (expectationStorage: ExpectationStorage, expectationBackup: ExpectationStorage)
      ensures this.expectationStorage == expectationStorage
      ensures this.expectationBackup == expectationBackup
    {
      this.expectationStorage := expectationStorage;
      this.expectationBackup := expectationBackup;
    }

    /** Empties the live store, then appends every backup expectation in
        backup order, and answers 200. Only the live store changes: the action
        holds no reference to scenarios or to the request history. Were both
        stores the same object, the clear would empty it for good. */
    method Execute(request: Request, response: Response) returns (r: Response)
      modifies expectationStorage
      ensures r == response.WithStatus(200, "")
      ensures expectationStorage != expectationBackup ==>
        expectationStorage.expectations == old(expectationBackup.expectations)
      ensures expectationStorage != expectationBackup ==> unchanged(expectationBackup)
      ensures expectationStorage == expectationBackup ==> expectationStorage.expectations == []
    {
      ghost var backupBefore := expectationBackup.expectations;
      expectationStorage.ClearExpectations();
      var backup := expectationBackup.ListExpectations();
      assert expectationStorage != expectationBackup ==> backup == backupBefore;
      assert expectationStorage == expectationBackup ==> backup == [];
      for i := 0 to |backup|
        invariant expectationStorage.expectations == backup[..i]
        invariant expectationStorage != expectationBackup ==> expectationBackup.expectations == backupBefore
      {
        expectationStorage.AddExpectation(backup[i]);
        assert backup[..i + 1] == backup[..i] + [backup[i]];
      }
      assert backup[..|backup|] == backup;
      r := response.WithStatus(200, "");
    }
  }

  /** Reloading twice leaves the live store as reloading once does: equal to
      the backup. */
  method ReloadIsIdempotent(action: ReloadPreconfiguredExpectationsAction, request: Request, response: Response)
    requires action.expectationStorage != action.expectationBackup
    modifies action.expectationStorage
    ensures action.expectationStorage.expectations == old(action.expectationBackup.expectations)
    ensures unchanged(action.expectationBackup)
  {
    var _ := action.Execute(request, response);
    ghost var once := action.expectationStorage.expectations;
    var _ := action.Execute(request, response);
    assert action.expectationStorage.expectations == once;
  }

  /** Expectations added after start-up are gone after a reload, whatever the
      live store held before. */
  method ReloadDiscardsAddedExpectations(
    action: ReloadPreconfiguredExpectationsAction, extra: Expectation, request: Request, response: Response)
    requires action.expectationStorage != action.expectationBackup
    modifies action.expectationStorage
    ensures action.expectationStorage.expectations == old(action.expectationBackup.expectations)
  {
    action.expectationStorage.AddExpectation(extra);
    var r := action.Execute(request, response);
    assert r.statusCode == 200;
  }
}
