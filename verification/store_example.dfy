/** The store of the skadi-lib integration test: a reducer over three screen states and
    its `LoadData` handler, and the runs that test exercises. The handler's use case
    always answers "success". */
module StoreExample {

  import opened Wrappers
  import opened Faults
  import opened Effects
  import opened Builder
  import opened States
  import opened Store

  datatype TestState = Init | Loading | DisplayData(data: string)

  datatype TestChange = RequestData | ButtonClicked | LoadDataSuccess(data: string)

  datatype TestAction = LoadData

  datatype TestSignal = ShowMessage

  /** The test's reducer, written with the builder DSL as the test writes it. Only
      `Init` rejects changes: it routes everything but `RequestData` to `unexpected`,
      which throws. */
  function TestReducer(s: TestState, c: TestChange): (r: Result<SkadiEffect<TestState, TestAction, TestSignal>, Fault>)
    ensures r.Failure? <==> s == Init && c != RequestData
    ensures r.Failure? ==> r.error == UnexpectedChangeError
    ensures s == Init && c == RequestData ==> r == Success(SkadiEffect(Loading, [LoadData], []))
    ensures s == Loading && c.LoadDataSuccess? ==> r == Success(SkadiEffect(DisplayData(c.data), [], []))
    ensures s == Loading && !c.LoadDataSuccess? ==> r == Success(SkadiEffect(s, [], []))
    ensures s.DisplayData? && c == ButtonClicked ==> r == Success(SkadiEffect(s, [], [ShowMessage]))
    ensures s.DisplayData? && c != ButtonClicked ==> r == Success(SkadiEffect(s, [], []))
  {
    match s
    case Init =>
      if c == RequestData then
        var block: seq<Call<TestState, TestAction, TestSignal>> := [StateCall(Loading), ActionCall(LoadData)];
        assert block[..1] == [StateCall(Loading)] && block[..1][..0] == [];
        assert block[0].StateCall?;
        assert LastState(block, None) == LastState(block[..1], None) == Some(Loading);
        assert LastSignals(block, []) == LastSignals(block[..1], []) == LastSignals(block[..1][..0], []) == [];
        EffectOf(block)
      else Failure(UnexpectedChangeError)
    case Loading =>
      if c.LoadDataSuccess? then
        var block: seq<Call<TestState, TestAction, TestSignal>> := [StateCall(DisplayData(c.data))];
        assert block[..0] == [];
        assert block[0].StateCall?;
        assert LastActions(block, []) == LastActions(block[..0], []) == [];
        assert LastSignals(block, []) == LastSignals(block[..0], []) == [];
        EffectOf(block)
      else Success(Same(s))
    case DisplayData(_) =>
      if c == ButtonClicked then
        var block: seq<Call<TestState, TestAction, TestSignal>> := [StateCall(s), SignalCall(ShowMessage)];
        assert block[..1] == [StateCall(s)] && block[..1][..0] == [];
        assert block[0].StateCall?;
        assert LastState(block, None) == LastState(block[..1], None) == Some(s);
        assert LastActions(block, []) == LastActions(block[..1], []) == LastActions(block[..1][..0], []) == [];
        EffectOf(block)
      else Success(Same(s))
  }

  /** The test's `actions`: `LoadData` runs the use case and reports its data. */
  function TestActions(a: TestAction): Result<TestChange, Fault>
  {
    match a
    case LoadData => Success(LoadDataSuccess("success"))
  }

  function TestHandlers(): Handlers<TestState, TestChange, TestAction, TestSignal>
  {
    Handlers(TestReducer, TestActions)
  }

  /** The store once `RequestData` has been reduced: `Loading`, one `LoadData` task. */
  function AfterRequest(): SkadiStore<TestState, TestChange, TestAction, TestSignal>
  {
    SkadiStore(Loading, [Init, Loading], [], [LoadData], [], [], Running)
  }

  /** The store once the `LoadData` task has resolved and its change was reduced. */
  function AfterLoad(): SkadiStore<TestState, TestChange, TestAction, TestSignal>
  {
    SkadiStore(DisplayData("success"), [Init, Loading, DisplayData("success")], [], [], [], [], Running)
  }

  /** Performing `RequestData` on a new store moves to `Loading` and launches `LoadData`. */
  lemma RequestDataLoads()
    ensures Drain(TestHandlers(), Perform(New(Init), RequestData)) == AfterRequest()
  {
    var s0: SkadiStore<TestState, TestChange, TestAction, TestSignal> := Perform(New(Init), RequestData);
    assert s0.changes == [RequestData];
    DrainSingle(TestHandlers(), s0);
  }

  /** The store while `LoadDataSuccess("success")` waits for the actor. */
  function LoadArrived(): SkadiStore<TestState, TestChange, TestAction, TestSignal> {
    SkadiStore(Loading, [Init, Loading], [LoadDataSuccess("success")], [], [], [], Running)
  }

  /** The `LoadData` task completing feeds `LoadDataSuccess("success")` to the actor. */
  lemma LoadDataResolves()
    ensures Resolve(TestHandlers(), AfterRequest(), 0) == LoadArrived()
  {
    assert TestHandlers().actions(LoadData) == Success(LoadDataSuccess("success"));
  }

  /** Reducing the arrived change moves the store to `DisplayData("success")`. */
  lemma LoadArrivedDisplays()
    ensures Drain(TestHandlers(), LoadArrived()) == AfterLoad()
  {
    var st := LoadArrived();
    assert Valid(st) by { assert NoRepeats(st.history); }
    assert TestHandlers().reducer(Loading, LoadDataSuccess("success")) == Success(SkadiEffect(DisplayData("success"), [], []));
    assert Push(st.history, DisplayData("success")) == AfterLoad().history;
    DrainSingle(TestHandlers(), st);
  }

  /** Once the `LoadData` task resolves, its change moves the store to
      `DisplayData("success")`, emitted as a third state. */
  lemma LoadResolvesToDisplay()
    ensures Drain(TestHandlers(), Resolve(TestHandlers(), AfterRequest(), 0)) == AfterLoad()
  {
    LoadDataResolves();
    LoadArrivedDisplays();
  }

  /** Performing `RequestData` moves to `Loading` and launches `LoadData`; once that
      resolves, the store shows the data, and the flow emitted exactly those states. */
  lemma RequestDataLoadsThenDisplays()
    ensures var h := TestHandlers();
      var s1 := Drain(h, Perform(New(Init), RequestData));
      && s1.state == Loading && s1.pending == [LoadData] && s1.history == [Init, Loading]
      && Drain(h, Resolve(h, s1, 0)) == AfterLoad()
  {
    RequestDataLoads();
    LoadResolvesToDisplay();
  }

  /** In `DisplayData` every change but `ButtonClicked` reduces to the same state, and
      the flow does not emit it again. */
  lemma NeverEmitsSameStateTwice(st: SkadiStore<TestState, TestChange, TestAction, TestSignal>, d: string)
    requires Valid(st) && st.state == DisplayData(d) && st.changes == [] && st.loop == Running
    ensures var r := Drain(TestHandlers(), Perform(st, RequestData));
      r.history == st.history && r.state == st.state
  {
    DrainSingle(TestHandlers(), Perform(st, RequestData));
  }

  /** `ButtonClicked` while still `Loading` keeps the state and publishes nothing. */
  lemma EarlyClickIsSilent()
    ensures Drain(TestHandlers(), Perform(AfterRequest(), ButtonClicked)) == AfterRequest()
  {
    assert TestReducer(Loading, ButtonClicked) == Success(SkadiEffect(Loading, [], []));
    DrainSingle(TestHandlers(), Perform(AfterRequest(), ButtonClicked));
  }

  /** `ButtonClicked` once the data is shown keeps the state and sends `ShowMessage`. */
  lemma LateClickSignals()
    ensures Drain(TestHandlers(), Perform(AfterLoad(), ButtonClicked)) == AfterLoad().(sent := [ShowMessage])
  {
    assert TestReducer(DisplayData("success"), ButtonClicked) == Success(SkadiEffect(DisplayData("success"), [], [ShowMessage]));
    DrainSingle(TestHandlers(), Perform(AfterLoad(), ButtonClicked));
  }

  /** `ButtonClicked` publishes `ShowMessage` once the data arrived, but reduces to the
      unchanged `Loading` state with no signal if it is reduced before `LoadData` resolves:
      which happens depends on when the handler task completes. */
  lemma SignalDependsOnSchedule()
    ensures var h := TestHandlers();
      var s1 := Drain(h, Perform(New(Init), RequestData));
      var early := Drain(h, Perform(s1, ButtonClicked));
      var late := Drain(h, Perform(Drain(h, Resolve(h, s1, 0)), ButtonClicked));
      && early.sent == [] && early.state == Loading
      && late.sent == [ShowMessage] && late.state == DisplayData("success")
  {
    RequestDataLoads();
    LoadResolvesToDisplay();
    EarlyClickIsSilent();
    LateClickSignals();
  }

  /** `ButtonClicked` in `Init` throws in the reducer: the actor dies with the state
      untouched, the exception surfaces on the scope, and a later `RequestData` is
      never reduced. */
  lemma UnexpectedChangeStopsTheActor()
    ensures var h := TestHandlers();
      var s1 := Drain(h, Perform(New(Init), ButtonClicked));
      var s2 := Drain(h, Perform(s1, RequestData));
      && s1.loop == Stopped(UnexpectedChangeError) && s1.state == Init && s1.history == [Init]
      && s1.uncaught == [UnexpectedChangeError]
      && s2.state == Init && s2.changes == [RequestData] && s2.pending == []
  {
    var h := TestHandlers();
    var s0: SkadiStore<TestState, TestChange, TestAction, TestSignal> := Perform(New(Init), ButtonClicked);
    assert s0.changes == [ButtonClicked];
    DrainSingle(h, s0);
  }

  /** The reducer of the store unit test, `effect { state.same() }`: the `same()` effect
      is built and discarded inside the block, which itself never sets a state. */
  function SameInsideEffect(s: TestState, c: TestChange): (r: Result<SkadiEffect<TestState, TestAction, TestSignal>, Fault>)
    ensures r == Failure(MissingStateError)
  {
    var discarded: SkadiEffect<TestState, TestAction, TestSignal> := Same(s);
    EffectOf([])
  }

  /** The store unit test's scenario: `performAction` on a store without `actions`
      throws exactly one exception onto the scope and leaves the store as it was. Any
      change performed on that store would stop its actor with the missing-state error. */
  lemma PerformActionWithoutHandler(a: TestAction, c: TestChange)
    ensures var h := WithoutActions(SameInsideEffect);
      var s0: SkadiStore<TestState, TestChange, TestAction, TestSignal> := New(Init);
      var s1 := Resolve(h, PerformAction(s0, a), 0);
      && s1 == s0.(uncaught := [UnhandledActionError])
      && Drain(h, Perform(s0, c)).loop == Stopped(MissingStateError)
  {
    var h := WithoutActions(SameInsideEffect);
    var s0: SkadiStore<TestState, TestChange, TestAction, TestSignal> := New(Init);
    PerformActionThenResolve(h, s0, a);
  }
}
