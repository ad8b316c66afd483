/** Building up a receipt: events and measured peaks are only ever added. */
module ReceiptLog {

  import opened Outcomes
  import opened Resources
  import opened Receipts
  import opened Runs

  /** The later receipt is valid and extends the earlier one. */
  ghost predicate Grown(before: Receipt, after: Receipt, resources: map<string, nat>) {
    Extends(before, after) && ReceiptValid(after, resources)
  }

  lemma GrownIsTransitive(a: Receipt, b: Receipt, c: Receipt, resources: map<string, nat>)
    requires Grown(a, b, resources) && Grown(b, c, resources)
    ensures Grown(a, c, resources)
  {
  }

  /** One event for each name, in order. */
  function Logged(backend: string, names: seq<string>, stage: Stage, statusOf: string -> Status,
                  code: string): (events: seq<Event>)
    ensures |events| == |names|
    ensures forall i :: 0 <= i < |names| ==> events[i] == Event(backend, names[i], stage, statusOf(names[i]), code)
  {
    if names == [] then [] else
      var last := names[|names| - 1];
      Logged(backend, names[..|names| - 1], stage, statusOf, code) + [Event(backend, last, stage, statusOf(last), code)]
  }

  ghost predicate Loggable(backend: string, names: seq<string>, code: string, resources: map<string, nat>) {
    NameValid(backend) && CodeValid(code) && forall name :: name in names ==> name in resources
  }

  /** `append_resource_event` for each of the names. */
  method Record(receipt: Receipt, backend: string, names: seq<string>, stage: Stage, statusOf: string -> Status,
                code: string,
                ghost resources: map<string, nat>) returns (longer: Receipt)
    requires ReceiptValid(receipt, resources) && Loggable(backend, names, code, resources)
    ensures longer == receipt.(events := receipt.events + Logged(backend, names, stage, statusOf, code))
    ensures Grown(receipt, longer, resources)
  {
    longer := receipt;
    for i := 0 to |names|
      invariant longer == receipt.(events := receipt.events + Logged(backend, names[..i], stage, statusOf, code))
    {
      assert names[..i + 1][..i] == names[..i];
      longer := longer.(events := longer.events + [Event(backend, names[i], stage, statusOf(names[i]), code)]);
    }
    assert names[..|names|] == names;
    LoggedGrows(receipt, longer, backend, names, stage, statusOf, code, resources);
  }

  lemma LoggedGrows(receipt: Receipt, longer: Receipt, backend: string, names: seq<string>, stage: Stage,
                    statusOf: string -> Status,
                    code: string, resources: map<string, nat>)
    requires ReceiptValid(receipt, resources) && Loggable(backend, names, code, resources)
    requires longer == receipt.(events := receipt.events + Logged(backend, names, stage, statusOf, code))
    ensures Grown(receipt, longer, resources)
  {
    forall i | 0 <= i < |longer.events|
      ensures EventValid(longer.events[i], resources)
    {
      if i < |receipt.events| {
        assert longer.events[i] == receipt.events[i];
      } else {
        assert longer.events[i] == Logged(backend, names, stage, statusOf, code)[i - |receipt.events|];
      }
    }
  }

  /** Exactly one event for each of the names, all recorded under this code or all failed with another one, and nothing
      else changed. */
  ghost predicate LoggedOnce(before: Receipt, after: Receipt, backend: string, names: seq<string>, stage: Stage,
                             good: string)
  {
    || after == before.(events := before.events + Logged(backend, names, stage, Always(Recorded), good))
    || exists code :: CodeValid(code) && AllFailed(before, after, backend, names, stage, code)
  }

  ghost predicate AllFailed(before: Receipt, after: Receipt, backend: string, names: seq<string>, stage: Stage,
                            code: string)
  {
    after == before.(events := before.events + Logged(backend, names, stage, Always(Failed), code))
  }

  /** One failure of each of the names, under one valid code: of a required one it is a failure, and otherwise it is
      left unapplied. */
  ghost predicate Failing(before: seq<Event>, after: seq<Event>, contract: map<string, Binding>, backend: string,
                          names: seq<string>, stage: Stage, code: string)
  {
    && CodeValid(code) && before <= after && |after| == |before| + |names|
    && forall i :: 0 <= i < |names| ==>
         after[|before| + i] == Event(backend, names[i], stage, if names[i] in contract
                                      && contract[names[i]].IsRequired()
                                                                then Failed else Unapplied, code)
  }

  /** Failing a required binding is a failure; failing a best-effort binding leaves it unapplied. */
  function FailureStatus(contract: map<string, Binding>): string -> Status {
    name => if name in contract && contract[name].IsRequired() then Failed else Unapplied
  }

  function Always(status: Status): string -> Status {
    name => status
  }

  predicate AnyRequired(contract: map<string, Binding>, names: seq<string>) {
    exists name :: name in names && name in contract && contract[name].IsRequired()
  }

  /** Some required resource has a failure on record. */
  ghost predicate Explained(contract: map<string, Binding>, events: seq<Event>) {
    exists i :: 0 <= i < |events| && FailureOf(contract, events[i])
  }

  predicate FailureOf(contract: map<string, Binding>, event: Event) {
    event.status.Failed? && event.resource in contract && contract[event.resource].IsRequired()
  }

  lemma ExplainedStays(contract: map<string, Binding>, before: seq<Event>, after: seq<Event>)
    requires Explained(contract, before) && before <= after
    ensures Explained(contract, after)
  {
    var i :| 0 <= i < |before| && FailureOf(contract, before[i]);
    assert FailureOf(contract, after[i]);
  }

  /** Recording the failure of names of which one is required explains it. */
  lemma FailureExplains(contract: map<string, Binding>, before: seq<Event>, backend: string, names: seq<string>,
                        stage: Stage, code: string)
    requires AnyRequired(contract, names)
    ensures Explained(contract, before + Logged(backend, names, stage, FailureStatus(contract), code))
  {
    var name :| name in names && name in contract && contract[name].IsRequired();
    var i :| 0 <= i < |names| && names[i] == name;
    var after := before + Logged(backend, names, stage, FailureStatus(contract), code);
    assert FailureOf(contract, after[|before| + i]);
  }

  lemma FailuresLogged(before: seq<Event>, contract: map<string, Binding>, backend: string, names: seq<string>,
                       stage: Stage, code: string)
    requires CodeValid(code)
    ensures Failing(before, before + Logged(backend, names, stage, FailureStatus(contract), code), contract, backend,
                    names, stage, code)
  {
  }

  /** The names fail once each, under the one code that the events show. */
  ghost predicate FailedOnce(before: seq<Event>, after: seq<Event>, contract: map<string, Binding>, backend: string,
                             names: seq<string>, stage: Stage)
  {
    && before <= after && |after| == |before| + |names|
    && (names != [] ==> Failing(before, after, contract, backend, names, stage, after[|before|].code))
  }

  /** A code of a backend, or a stock code in place of a malformed one. */
  function SafeCode(code: string, instead: string): string {
    if CodeValid(code) then code else instead
  }

  lemma KnownCodes()
    ensures CodeValid("prepared") && CodeValid("applied") && CodeValid("cancelled") && CodeValid("cleaned")
              && CodeValid("finished")
    ensures CodeValid("tmpfs-mounted") && CodeValid("quota-ready") && CodeValid("backend-unavailable")
    ensures NameValid(CGROUP_BACKEND) && NameValid(QUOTA_BACKEND)
  {
  }

  lemma StockCodes()
    ensures CodeValid("prepare-failed") && CodeValid("attach-failed") && CodeValid("usage-failed")
  {
  }

  /** `resource_event_exists`, for an observation of one resource in any stage. */
  predicate Observed(receipt: Receipt, backend: string, resource: string, code: string) {
    exists i :: 0 <= i < |receipt.events| && receipt.events[i].backend == backend
        && receipt.events[i].resource == resource
                && receipt.events[i].code == code
  }

  // ---------------------------------------------------------------- measurements

  datatype Observation = Observation(resource: string, code: string)

  datatype Measurement = Measurement(peak: map<string, nat>, observations: seq<Observation>)

  predicate MeasurementValid(measurement: Measurement, resources: map<string, nat>) {
    && (forall name :: name in measurement.peak ==> name in resources)
    && forall i :: 0 <= i < |measurement.observations| ==>
         measurement.observations[i].resource in resources && CodeValid(measurement.observations[i].code)
  }

  /** The peak after a sample: of what is applied, the larger of the two. */
  function PeakAfter(receipt: Receipt, sample: map<string, nat>): map<string, nat> {
    map name | name in receipt.peak.Keys + sample.Keys * receipt.applied.Keys ::
      if name !in receipt.peak then sample[name]
      else if name in sample && name in receipt.applied && sample[name] > receipt.peak[name] then sample[name]
      else receipt.peak[name]
  }

  /** The receipt once these observations were recorded: of what is applied, each that is not there yet. */
  function WithObservations(receipt: Receipt, backend: string, stage: Stage, observations: seq<Observation>): Receipt {
    if observations == [] then receipt else
      var rest := WithObservations(receipt, backend, stage, observations[..|observations| - 1]);
      var last := observations[|observations| - 1];
      if last.resource in receipt.applied && !Observed(rest, backend, last.resource, last.code) then
        rest.(events := rest.events + [Event(backend, last.resource, stage, Recorded, last.code)])
      else rest
  }

  /** An event that an observation of something applied adds, which was not on record. */
  ghost predicate NewlyObserved(before: Receipt, event: Event, backend: string, stage: Stage,
                                observations: seq<Observation>)
  {
    && event == Event(backend, event.resource, stage, Recorded, event.code)
    && Observation(event.resource, event.code) in observations && event.resource in before.applied
    && !Observed(before, backend, event.resource, event.code)
  }

  /** Nothing but new observations of what is applied is added, each once, and none is left out. */
  lemma {:induction false} ObservationsOnce(receipt: Receipt, backend: string, stage: Stage,
                                            observations: seq<Observation>)
    ensures var after := WithObservations(receipt, backend, stage, observations);
            && after == receipt.(events := after.events) && receipt.events <= after.events
            && (forall i :: |receipt.events| <= i < |after.events| ==>
                              NewlyObserved(receipt, after.events[i], backend, stage, observations))
            && (forall i, j :: |receipt.events| <= i < j < |after.events| ==> after.events[i] != after.events[j])
            && (forall k :: 0 <= k < |observations| && observations[k].resource in receipt.applied ==>
                              Observed(after, backend, observations[k].resource, observations[k].code))
  {
    if observations != [] {
      var earlier, last := observations[..|observations| - 1], observations[|observations| - 1];
      var rest := WithObservations(receipt, backend, stage, earlier);
      var after := WithObservations(receipt, backend, stage, observations);
      ObservationsOnce(receipt, backend, stage, earlier);
      ObservedStays(receipt, rest, backend);
      ObservedStays(rest, after, backend);
      forall i | |receipt.events| <= i < |after.events|
        ensures NewlyObserved(receipt, after.events[i], backend, stage, observations)
      {
        if i < |rest.events| {
          assert NewlyObserved(receipt, rest.events[i], backend, stage, earlier);
        }
      }
      if |after.events| > |rest.events| {
        assert after.events[|rest.events|] == Event(backend, last.resource, stage, Recorded, last.code);
      }
    }
  }

  /** The receipt after a measurement: the raised peaks, and the new observations. */
  function Merged(receipt: Receipt, backend: string, stage: Stage, measurement: Measurement): Receipt {
    WithObservations(receipt.(peak := PeakAfter(receipt, measurement.peak)), backend, stage, measurement.observations)
  }

  /** `merge_measurement`: every applied peak rises to the sample, and every new observation is recorded once. */
  method MergeMeasurement(receipt: Receipt, resources: map<string, nat>, backend: string, stage: Stage,
                          measurement: Measurement)
    returns (merged: Result<Receipt>)
    requires ReceiptValid(receipt, resources) && NameValid(backend)
    ensures merged.Ok? <==> MeasurementValid(measurement, resources)
    ensures merged.Ok? ==> merged.value == Merged(receipt, backend, stage, measurement)
    ensures merged.Ok? ==> Grown(receipt, merged.value, resources)
    ensures merged.Ok? ==>
              merged.value.applied == receipt.applied && merged.value.peak == PeakAfter(receipt, measurement.peak)
  {
    if !MeasurementValid(measurement, resources) {
      return Err("broker-row-invalid");
    }
    var peak := MergePeak(receipt, measurement.peak);
    var raised := receipt.(peak := peak);
    var observed := MergeObservations(raised, resources, backend, stage, measurement.observations);
    return Ok(observed);
  }

  method MergePeak(receipt: Receipt, sample: map<string, nat>) returns (peak: map<string, nat>)
    ensures peak == PeakAfter(receipt, sample)
  {
    peak := receipt.peak;
    var names := sample.Keys;
    while names != {}
      invariant names <= sample.Keys
      invariant peak == PeakAfter(receipt, sample - names)
      decreases names
    {
      var name :| name in names;
      names := names - {name};
      if name in receipt.applied {
        if name !in peak || sample[name] > peak[name] {
          peak := peak[name := sample[name]];
        }
      }
    }
    assert sample - {} == sample;
  }

  method MergeObservations(receipt: Receipt, resources: map<string, nat>, backend: string, stage: Stage,
                           observations: seq<Observation>)
    returns (longer: Receipt)
    requires ReceiptValid(receipt, resources) && NameValid(backend)
    requires forall i :: 0 <= i < |observations| ==>
              observations[i].resource in resources && CodeValid(observations[i].code)
    ensures Grown(receipt, longer, resources) && longer.applied == receipt.applied && longer.peak == receipt.peak
    ensures longer == WithObservations(receipt, backend, stage, observations)
  {
    longer := receipt;
    for i := 0 to |observations|
      invariant Grown(receipt, longer, resources) && longer.applied == receipt.applied && longer.peak == receipt.peak
      invariant longer == WithObservations(receipt, backend, stage, observations[..i])
    {
      assert observations[..i + 1][..i] == observations[..i];
      longer := MergeObservation(longer, resources, backend, stage, observations[i], receipt);
    }
    assert observations[..|observations|] == observations;
  }

  method MergeObservation(receipt: Receipt, resources: map<string, nat>, backend: string, stage: Stage,
                          observation: Observation, ghost start: Receipt)
    returns (longer: Receipt)
    requires Grown(start, receipt, resources) && receipt.applied == start.applied && NameValid(backend)
    requires observation.resource in resources && CodeValid(observation.code)
    ensures Grown(start, longer, resources) && longer.applied == receipt.applied && longer.peak == receipt.peak
    ensures var Observation(resource, code) := observation;
            longer == if resource in receipt.applied && !Observed(receipt, backend, resource, code) then
                        receipt.(events := receipt.events + [Event(backend, resource, stage, Recorded, code)])
                      else receipt
  {
    longer := receipt;
    var Observation(resource, code) := observation;
    if resource in receipt.applied && !Observed(receipt, backend, resource, code) {
      longer := Record(receipt, backend, [resource], stage, Always(Recorded), code, resources);
      OneLogged(backend, resource, stage, code);
      GrownIsTransitive(start, receipt, longer, resources);
    }
  }

  lemma OneLogged(backend: string, resource: string, stage: Stage, code: string)
    ensures Logged(backend, [resource], stage, Always(Recorded), code)
              == [Event(backend, resource, stage, Recorded, code)]
  {
  }

  lemma ObservedStays(before: Receipt, after: Receipt, backend: string)
    requires before.events <= after.events
    ensures forall resource, code :: Observed(before, backend, resource, code) ==>
              Observed(after, backend, resource, code)
  {
    forall resource, code | Observed(before, backend, resource, code)
      ensures Observed(after, backend, resource, code)
    {
      var i :| 0 <= i < |before.events| && before.events[i].backend == backend && before.events[i].resource == resource
               && before.events[i].code == code;
      assert after.events[i] == before.events[i];
    }
  }
}
