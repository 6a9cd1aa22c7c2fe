/** The two sensor logs of the sample data in firebase-test-data.js, pushed
    through the projection and the dashboard's derivations. */
module Fixture {
  import opened Values
  import opened Projection
  import opened Dashboard

  const FirstKey: string := "-OkXCiWQhcGEOwy7FpwQ"
  const SecondKey: string := "-OkXCiWQhcGEOwy7FpwR"

  const FirstLog: Value :=
    Obj([("gas", Num(271)), ("humidity", Num(89)), ("temperature", Num(35)), ("time", Num(6364))])
  const SecondLog: Value :=
    Obj([("gas", Num(265)), ("humidity", Num(87)), ("temperature", Num(34)), ("time", Num(6365))])

  /** The snapshot at `lionbit/device01/logs`. */
  const SampleLogs: Value := Obj([(FirstKey, FirstLog), (SecondKey, SecondLog)])

  /** The sample projects to two records whose ids are the keys in order; the
      latest reading is the second log, and the history table shows the
      second log, then the first. */
  lemma SampleDashboard()
    ensures |Project(SampleLogs)| == 2
    ensures Ids(Project(SampleLogs)) == [Some(Str(FirstKey)), Some(Str(SecondKey))]
    ensures Project(SampleLogs)[1]["temperature"] == Num(34)
    ensures Project(SampleLogs)[1]["time"] == Num(6365)
    ensures Latest(Project(SampleLogs)) == Some(Project(SampleLogs)[1])
    ensures HistoryWindow(Project(SampleLogs)) == [Project(SampleLogs)[1], Project(SampleLogs)[0]]
  {
    var children := [(FirstKey, FirstLog), (SecondKey, SecondLog)];
    var second := [("gas", Num(265)), ("humidity", Num(87)), ("temperature", Num(34)), ("time", Num(6365))];
    NoIdFieldKeepsKey([("gas", Num(271)), ("humidity", Num(89)), ("temperature", Num(35)), ("time", Num(6364))]);
    NoIdFieldKeepsKey(second);
    IdsAreKeys(children);
    ProjectedFields(children, 1, second, 2);
    ProjectedFields(children, 1, second, 3);
    HistoryWindowIsRecentFirst(Project(SampleLogs));
  }
}
