/**
 The default implementation of the RSS 1.0 Syndication module
 (http://web.resource.org/rss/1.0/modules/syndication/): how often a feed is
 updated (`updatePeriod`, `updateFrequency`) and from which instant the
 schedule is counted (`updateBase`).  The module state is a value; every
 setter returns the state after the call, and a setter that throws returns
 the state it was given.
 */
module SyModuleImpl {
  import opened Wrappers

  /** Java `int`. */
  newtype int32 = x: int | -0x8000_0000 <= x < 0x8000_0000
  /** Java `long`. */
  newtype int64 = x: int | -0x8000_0000_0000_0000 <= x < 0x8000_0000_0000_0000

  /**
   A `java.util.Date`: an instant in milliseconds since the epoch.  As a value
   it cannot be mutated through an alias, which is what the source's copy on
   every get and set achieves.
   */
  datatype Date = Date(time: int64)

  /** The contract URI of the Syndication module. */
  const URI := "http://purl.org/rss/1.0/modules/syndication/"

  const HOURLY := "hourly"
  const DAILY := "daily"
  const WEEKLY := "weekly"
  const MONTHLY := "monthly"
  const YEARLY := "yearly"

  /** The closed set of update periods the module accepts. */
  const PERIODS: set<string> := {HOURLY, DAILY, WEEKLY, MONTHLY, YEARLY}

  /** The names of the properties the module contract declares for copying. */
  const DECLARED_PROPERTIES: set<string> := {"updatePeriod", "updateFrequency", "updateBase"}

  /** The module state: its contract URI and the three declared properties. */
  datatype SyModule = SyModule(
    uri: string,
    updatePeriod: Option<string>,
    updateFrequency: int32,
    updateBase: Option<Date>)

  /** The exceptions the accessors can raise. */
  datatype Exception =
    | IllegalArgument(message: string)
    | NullPointer

  /** The state after a setter call, and the exception it raised, if any. */
  datatype Step = Step(state: SyModule, thrown: Option<Exception>)

  /** The value of one declared property, tagged with its declared type. */
  datatype PropertyValue =
    | StringValue(s: Option<string>)
    | IntValue(i: int32)
    | DateValue(d: Option<Date>)

  /** A fresh module: no period, frequency 0 (Java's default), no base. */
  function New(): SyModule {
    SyModule(URI, None, 0, None)
  }

  /** The state invariant: the module's own URI and a period that is null or one of the five. */
  predicate Valid(m: SyModule) {
    m.uri == URI && (m.updatePeriod.None? || m.updatePeriod.value in PERIODS)
  }

  function GetUpdatePeriod(m: SyModule): Option<string> {
    m.updatePeriod
  }

  /** Java's rendering of a possibly null string in a concatenation. */
  function ShowNullable(s: Option<string>): string {
    if s.Some? then s.value else "null"
  }

  /**
   Sets the update period.  Any value outside the five periods, null
   included, raises an invalid-argument error and changes nothing.
   */
  function SetUpdatePeriod(m: SyModule, updatePeriod: Option<string>): (r: Step)
    ensures r.thrown.None? <==>
      updatePeriod in {Some("hourly"), Some("daily"), Some("weekly"), Some("monthly"), Some("yearly")}
    ensures r.thrown.None? ==> GetUpdatePeriod(r.state) == updatePeriod
    ensures r.thrown.None? ==>
      r.state.uri == m.uri && r.state.updateFrequency == m.updateFrequency && r.state.updateBase == m.updateBase
    ensures r.thrown.Some? ==> r.state == m && r.thrown.value.IllegalArgument?
  {
    if updatePeriod.None? || updatePeriod.value !in PERIODS then
      Step(m, Some(IllegalArgument("Invalid period [" + ShowNullable(updatePeriod) + "]")))
    else
      Step(m.(updatePeriod := updatePeriod), None)
  }

  function GetUpdateFrequency(m: SyModule): int32 {
    m.updateFrequency
  }

  /** Sets the update frequency; every `int` is accepted. */
  function SetUpdateFrequency(m: SyModule, updateFrequency: int32): (r: SyModule)
    ensures GetUpdateFrequency(r) == updateFrequency
    ensures r.uri == m.uri && r.updatePeriod == m.updatePeriod && r.updateBase == m.updateBase
  {
    m.(updateFrequency := updateFrequency)
  }

  /** Returns a copy of the update base; with no base set the dereference fails. */
  function GetUpdateBase(m: SyModule): (r: Result<Date, Exception>)
    ensures r.Failure? <==> m.updateBase.None?
    ensures r.Failure? ==> r.error == NullPointer
    ensures r.Success? ==> Some(r.value) == m.updateBase
  {
    match m.updateBase
    case None => Failure(NullPointer)
    case Some(d) => Success(Date(d.time))
  }

  /** Stores a copy of the given date; a null date fails and changes nothing. */
  function SetUpdateBase(m: SyModule, updateBase: Option<Date>): (r: Step)
    ensures r.thrown.None? <==> updateBase.Some?
    ensures r.thrown.None? ==> GetUpdateBase(r.state) == Success(updateBase.value)
    ensures r.thrown.None? ==>
      r.state.uri == m.uri && r.state.updatePeriod == m.updatePeriod && r.state.updateFrequency == m.updateFrequency
    ensures r.thrown.Some? ==> r.state == m && r.thrown.value == NullPointer
  {
    match updateBase
    case None => Step(m, Some(NullPointer))
    case Some(d) => Step(m.(updateBase := Some(Date(d.time))), None)
  }

  /** Reads a declared property by name, as the copy protocol does. */
  function Property(m: SyModule, name: string): PropertyValue
    requires name in DECLARED_PROPERTIES
  {
    if name == "updatePeriod" then StringValue(m.updatePeriod)
    else if name == "updateFrequency" then IntValue(m.updateFrequency)
    else DateValue(m.updateBase)
  }

  /**
   Copies every declared property of `source` into `target`; the target's
   own contract URI is kept.
   */
  function CopyFrom(target: SyModule, source: SyModule): (r: SyModule)
    ensures forall name | name in DECLARED_PROPERTIES :: Property(r, name) == Property(source, name)
    ensures r.uri == target.uri
  {
    target.(updatePeriod := source.updatePeriod,
            updateFrequency := source.updateFrequency,
            updateBase := source.updateBase)
  }

  /** Setting a valid period and reading it back yields that period. */
  lemma SetUpdatePeriodRoundTrip(m: SyModule, p: string)
    requires p in PERIODS
    ensures SetUpdatePeriod(m, Some(p)).thrown.None?
    ensures GetUpdatePeriod(SetUpdatePeriod(m, Some(p)).state) == Some(p)
  {
  }

  /** A rejected period, null included, leaves the previous period readable. */
  lemma SetUpdatePeriodRejectKeepsPeriod(m: SyModule, p: Option<string>)
    requires p.None? || p.value !in PERIODS
    ensures SetUpdatePeriod(m, p).thrown == Some(IllegalArgument("Invalid period [" + ShowNullable(p) + "]"))
    ensures GetUpdatePeriod(SetUpdatePeriod(m, p).state) == GetUpdatePeriod(m)
  {
  }

  /** Every operation keeps the state invariant. */
  lemma OperationsPreserveValid(m: SyModule, source: SyModule, p: Option<string>, n: int32, d: Option<Date>)
    requires Valid(m) && Valid(source)
    ensures Valid(New())
    ensures Valid(SetUpdatePeriod(m, p).state)
    ensures Valid(SetUpdateFrequency(m, n))
    ensures Valid(SetUpdateBase(m, d).state)
    ensures Valid(CopyFrom(m, source))
  {
  }

  /** Copying between two modules of the same contract reproduces the source exactly. */
  lemma CopyFromSameContract(target: SyModule, source: SyModule)
    requires target.uri == source.uri
    ensures CopyFrom(target, source) == source
  {
  }

  /** Copying the same source twice changes nothing the first copy did not. */
  lemma CopyFromIdempotent(target: SyModule, source: SyModule)
    ensures CopyFrom(CopyFrom(target, source), source) == CopyFrom(target, source)
  {
  }

  /**
   Period "hourly", frequency 100 and base 2001-01-01T01:00+00:00
   (978310800000 ms) read back exactly.
   */
  lemma ScenarioHourly()
    ensures
      var base := Date(978310800000);
      var s1 := SetUpdatePeriod(New(), Some(HOURLY));
      var s2 := SetUpdateFrequency(s1.state, 100);
      var s3 := SetUpdateBase(s2, Some(base));
      && s1.thrown.None? && s3.thrown.None?
      && GetUpdatePeriod(s3.state) == Some("hourly")
      && GetUpdateFrequency(s3.state) == 100
      && GetUpdateBase(s3.state) == Success(base)
  {
  }
}
