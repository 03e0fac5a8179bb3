/**
 * The alert-settings dialog of src/components/sensors/edit-alerts-dialog.tsx:
 * the form's defaults, its validation and save guard, and `onSubmit`, which
 * sends a threshold update and two toggles, each only when the form differs
 * from the sensor, one after another, stopping at the first failure.
 */
module EditAlertsDialog {
  import opened Js

  /** The alert fields of the loaded sensor; each may be absent. */
  datatype SensorAlerts = SensorAlerts(
    waterLevelAlert: Option<bool>,
    disconnectionAlert: Option<bool>,
    waterLevelThreshold: Option<real>)

  /** The form values; an empty threshold input reads as NaN, here `None`. */
  datatype AlertsForm = AlertsForm(
    waterLevelAlert: bool,
    disconnectionAlert: bool,
    waterLevelThreshold: Option<real>)

  datatype Request =
    | UpdateThreshold(sensorId: string, threshold: Option<real>)
    | ToggleWaterLevel(sensorId: string)
    | ToggleDisconnection(sensorId: string)
  {
    /** The position of the request in the submit sequence. */
    function Rank(): nat {
      match this
      case UpdateThreshold(_, _) => 0
      case ToggleWaterLevel(_) => 1
      case ToggleDisconnection(_) => 2
    }
  }

  /** `sensor?.x` for every field: a sensor not loaded has none of them. */
  function FieldsOf(sensor: Option<SensorAlerts>): (f: SensorAlerts)
    ensures sensor.Some? ==> f == sensor.value
    ensures sensor.None? ==> f.waterLevelAlert.None? && f.disconnectionAlert.None? && f.waterLevelThreshold.None?
  {
    sensor.GetOr(SensorAlerts(None, None, None))
  }

  /** The form's `defaultValues`, taken from the sensor on the first render. */
  function FormDefaults(sensor: Option<SensorAlerts>): (form: AlertsForm)
    ensures form.waterLevelAlert <==> FieldsOf(sensor).waterLevelAlert == Some(true)
    ensures form.disconnectionAlert <==> FieldsOf(sensor).disconnectionAlert == Some(true)
    ensures form.waterLevelThreshold.Some?
    ensures FieldsOf(sensor).waterLevelThreshold.Some? ==> form.waterLevelThreshold == FieldsOf(sensor).waterLevelThreshold
    ensures FieldsOf(sensor).waterLevelThreshold.None? ==> form.waterLevelThreshold == Some(20.0)
  {
    var fields := FieldsOf(sensor);
    AlertsForm(
      fields.waterLevelAlert.GetOr(false),
      fields.disconnectionAlert.GetOr(false),
      Some(fields.waterLevelThreshold.GetOr(20.0)))
  }

  /** `value !== field` for a number: NaN and an absent field differ from everything. */
  predicate ThresholdDiffers(value: Option<real>, field: Option<real>) {
    value.None? || field != value
  }

  /** `value !== field` for a flag: an absent field differs from both flags. */
  predicate FlagDiffers(value: bool, field: Option<bool>) {
    field != Some(value)
  }

  /** `request` when `changed`, nothing otherwise. */
  function SendIf(changed: bool, request: Request): seq<Request> {
    if changed then [request] else []
  }

  /** The requests `onSubmit` would send if every one succeeded, in order. */
  function PlannedRequests(sensorId: string, data: AlertsForm, sensor: Option<SensorAlerts>): seq<Request>
  {
    var fields := FieldsOf(sensor);
    SendIf(ThresholdDiffers(data.waterLevelThreshold, fields.waterLevelThreshold),
           UpdateThreshold(sensorId, data.waterLevelThreshold))
    + SendIf(FlagDiffers(data.waterLevelAlert, fields.waterLevelAlert), ToggleWaterLevel(sensorId))
    + SendIf(FlagDiffers(data.disconnectionAlert, fields.disconnectionAlert), ToggleDisconnection(sensorId))
  }

  /**
   * The plan holds the threshold update exactly when the threshold changed and
   * each toggle exactly when its flag changed, all for this sensor, and in the
   * order threshold, water level, disconnection.
   */
  lemma PlannedRequestsContents(sensorId: string, data: AlertsForm, sensor: Option<SensorAlerts>, r: seq<Request>)
    requires r == PlannedRequests(sensorId, data, sensor)
    ensures UpdateThreshold(sensorId, data.waterLevelThreshold) in r
        <==> ThresholdDiffers(data.waterLevelThreshold, FieldsOf(sensor).waterLevelThreshold)
    ensures ToggleWaterLevel(sensorId) in r <==> FlagDiffers(data.waterLevelAlert, FieldsOf(sensor).waterLevelAlert)
    ensures ToggleDisconnection(sensorId) in r <==> FlagDiffers(data.disconnectionAlert, FieldsOf(sensor).disconnectionAlert)
    ensures forall q :: q in r ==> q.sensorId == sensorId
    ensures forall q :: q in r && q.UpdateThreshold? ==> q.threshold == data.waterLevelThreshold
    ensures forall i, j :: 0 <= i < j < |r| ==> r[i].Rank() < r[j].Rank()
  {
  }

  datatype Dispatched = Dispatched(issued: seq<Request>, allSucceeded: bool)

  /**
   * Awaiting the planned requests one by one: a failed request is the last
   * one sent. `succeeds` is the server's answer to each request.
   */
  function Dispatch(planned: seq<Request>, succeeds: Request -> bool): Dispatched {
    if planned == [] then Dispatched([], true)
    else if !succeeds(planned[0]) then Dispatched([planned[0]], false)
    else
      var rest := Dispatch(planned[1..], succeeds);
      Dispatched([planned[0]] + rest.issued, rest.allSucceeded)
  }

  /**
   * What is sent is a prefix of the plan; everything but the last request
   * sent succeeded; the submission succeeds iff the whole plan was sent and
   * every request succeeded, and otherwise the last request sent failed.
   */
  lemma {:induction false} DispatchStopsAtFirstFailure(planned: seq<Request>, succeeds: Request -> bool)
    ensures var d := Dispatch(planned, succeeds);
      && |d.issued| <= |planned| && d.issued == planned[..|d.issued|]
      && (forall i :: 0 <= i < |d.issued| - 1 ==> succeeds(d.issued[i]))
      && (d.allSucceeded <==> d.issued == planned && forall i :: 0 <= i < |planned| ==> succeeds(planned[i]))
      && (!d.allSucceeded ==> |d.issued| > 0 && !succeeds(d.issued[|d.issued| - 1]))
  {
    if planned != [] && succeeds(planned[0]) {
      DispatchStopsAtFirstFailure(planned[1..], succeeds);
      assert forall i :: 1 <= i < |planned| ==> planned[i] == planned[1..][i - 1];
    }
  }

  /** The threshold input's rules: required, at least 0, at most 100. */
  predicate ThresholdValid(threshold: Option<real>) {
    threshold.Some? && 0.0 <= threshold.value <= 100.0
  }

  /** Validation: the threshold input is only mounted, and checked, while the water-level alert is on. */
  predicate PassesValidation(form: AlertsForm) {
    form.waterLevelAlert ==> ThresholdValid(form.waterLevelThreshold)
  }

  /** The save button: disabled unless the form is dirty and not submitting. */
  predicate SaveEnabled(isDirty: bool, isSubmitting: bool) {
    isDirty && !isSubmitting
  }

  datatype DialogView =
    | Nothing
    | Shown(open: bool, thresholdShown: bool, saveEnabled: bool)

  /** What the component renders. */
  function View(sensor: Option<SensorAlerts>, open: bool, form: AlertsForm, isDirty: bool, isSubmitting: bool)
    : (v: DialogView)
    ensures v.Nothing? <==> sensor.None?
    ensures v.Shown? ==> v.open == open && v.thresholdShown == form.waterLevelAlert
    ensures v.Shown? ==> (v.saveEnabled <==> isDirty && !isSubmitting)
  {
    if sensor.None? then Nothing else Shown(open, form.waterLevelAlert, SaveEnabled(isDirty, isSubmitting))
  }

  datatype Event = Sent(request: Request) | UpdateCallback

  function SentAll(requests: seq<Request>): (events: seq<Event>)
    ensures |events| == |requests|
    ensures forall i :: 0 <= i < |requests| ==> events[i] == Sent(requests[i])
  {
    seq(|requests|, i requires 0 <= i < |requests| => Sent(requests[i]))
  }

  lemma SentAllCons(request: Request, rest: seq<Request>)
    ensures SentAll([request] + rest) == [Sent(request)] + SentAll(rest)
  {
  }

  /** The events a submission adds to the log: the requests sent, then `onUpdate`. */
  function SubmitEvents(planned: seq<Request>, succeeds: Request -> bool, hasOnUpdate: bool): seq<Event> {
    var d := Dispatch(planned, succeeds);
    SentAll(d.issued) + (if d.allSucceeded && hasOnUpdate then [UpdateCallback] else [])
  }

  /** Dispatching a non-empty plan: its head is sent first. */
  lemma DispatchStep(request: Request, rest: seq<Request>, succeeds: Request -> bool)
    ensures succeeds(request) ==>
      Dispatch([request] + rest, succeeds) == Dispatched([request] + Dispatch(rest, succeeds).issued, Dispatch(rest, succeeds).allSucceeded)
    ensures !succeeds(request) ==> Dispatch([request] + rest, succeeds) == Dispatched([request], false)
  {
    var planned := [request] + rest;
    assert planned[0] == request && planned[1..] == rest;
  }

  /** How sending the next planned request advances the submission. */
  lemma SendStep(request: Request, rest: seq<Request>, succeeds: Request -> bool, hasOnUpdate: bool)
    ensures succeeds(request) ==>
      SubmitEvents([request] + rest, succeeds, hasOnUpdate) == [Sent(request)] + SubmitEvents(rest, succeeds, hasOnUpdate)
      && Dispatch([request] + rest, succeeds).allSucceeded == Dispatch(rest, succeeds).allSucceeded
    ensures !succeeds(request) ==>
      SubmitEvents([request] + rest, succeeds, hasOnUpdate) == [Sent(request)]
      && !Dispatch([request] + rest, succeeds).allSucceeded
  {
    DispatchStep(request, rest, succeeds);
    var d := Dispatch(rest, succeeds);
    var tail := if d.allSucceeded && hasOnUpdate then [UpdateCallback] else [];
    if succeeds(request) {
      SentAllCons(request, d.issued);
      assert SubmitEvents([request] + rest, succeeds, hasOnUpdate) == SentAll([request] + d.issued) + tail;
      assert SubmitEvents(rest, succeeds, hasOnUpdate) == SentAll(d.issued) + tail;
    } else {
      assert SentAll([request]) == [Sent(request)];
    }
  }

  class Dialog {
    const sensorId: string
    /** Whether the `onUpdate` prop was passed. */
    const hasOnUpdate: bool
    var open: bool
    /** Requests sent and callbacks made, oldest first. */
    var log: seq<Event>

    constructor (sensorId: string, hasOnUpdate: bool)
      ensures this.sensorId == sensorId && this.hasOnUpdate == hasOnUpdate
      ensures !open && log == []
    {
      this.sensorId, this.hasOnUpdate := sensorId, hasOnUpdate;
      open, log := false, [];
    }

    /** `onOpenChange` */
    method SetOpen(newOpen: bool)
      modifies this
      ensures open == newOpen && log == old(log)
    {
      open := newOpen;
    }

    /** Sends one request and reports whether it succeeded. */
    method Send(request: Request, succeeds: Request -> bool) returns (ok: bool)
      modifies this
      ensures ok == succeeds(request)
      ensures log == old(log) + [Sent(request)] && open == old(open)
    {
      log := log + [Sent(request)];
      ok := succeeds(request);
    }

    /**
     * One stage of `onSubmit`: sends `request` when `changed`. `ok` says whether
     * the handler goes on; `rest` is what the handler would send after this stage.
     */
    method SendIfChanged(changed: bool, request: Request, ghost rest: seq<Request>, succeeds: Request -> bool)
      returns (ok: bool)
      modifies this
      ensures ok ==>
        old(log) + SubmitEvents(SendIf(changed, request) + rest, succeeds, hasOnUpdate)
          == log + SubmitEvents(rest, succeeds, hasOnUpdate)
        && Dispatch(SendIf(changed, request) + rest, succeeds).allSucceeded == Dispatch(rest, succeeds).allSucceeded
      ensures !ok ==>
        log == old(log) + SubmitEvents(SendIf(changed, request) + rest, succeeds, hasOnUpdate)
        && !Dispatch(SendIf(changed, request) + rest, succeeds).allSucceeded
      ensures open == old(open)
    {
      if changed {
        assert SendIf(changed, request) + rest == [request] + rest;
        SendStep(request, rest, succeeds, hasOnUpdate);
        ok := Send(request, succeeds);
      } else {
        assert SendIf(changed, request) + rest == rest;
        ok := true;
      }
    }

    /** `onSubmit(data)` */
    method OnSubmit(data: AlertsForm, sensor: Option<SensorAlerts>, succeeds: Request -> bool)
      modifies this
      ensures var d := Dispatch(PlannedRequests(sensorId, data, sensor), succeeds);
              log == old(log) + SubmitEvents(PlannedRequests(sensorId, data, sensor), succeeds, hasOnUpdate)
              && open == (if d.allSucceeded then false else old(open))
    {
      var fields := FieldsOf(sensor);
      var thresholdChanged := ThresholdDiffers(data.waterLevelThreshold, fields.waterLevelThreshold);
      var waterLevelChanged := FlagDiffers(data.waterLevelAlert, fields.waterLevelAlert);
      var disconnectionChanged := FlagDiffers(data.disconnectionAlert, fields.disconnectionAlert);
      var first, second, third :=
        UpdateThreshold(sensorId, data.waterLevelThreshold), ToggleWaterLevel(sensorId), ToggleDisconnection(sensorId);
      ghost var last := SendIf(disconnectionChanged, third);
      ghost var later := SendIf(waterLevelChanged, second) + last;
      assert PlannedRequests(sensorId, data, sensor) == SendIf(thresholdChanged, first) + later;
      assert last == SendIf(disconnectionChanged, third) + [];
      ghost var planned := PlannedRequests(sensorId, data, sensor);
      ghost var events := old(log) + SubmitEvents(planned, succeeds, hasOnUpdate);
      ghost var succeeded := Dispatch(planned, succeeds).allSucceeded;
      var ok := SendIfChanged(thresholdChanged, first, later, succeeds);
      if !ok { return; }
      assert events == log + SubmitEvents(later, succeeds, hasOnUpdate);
      assert succeeded == Dispatch(later, succeeds).allSucceeded;
      ok := SendIfChanged(waterLevelChanged, second, last, succeeds);
      if !ok { return; }
      assert events == log + SubmitEvents(last, succeeds, hasOnUpdate);
      assert succeeded == Dispatch(last, succeeds).allSucceeded;
      ok := SendIfChanged(disconnectionChanged, third, [], succeeds);
      if !ok { return; }
      assert SubmitEvents([], succeeds, hasOnUpdate) == if hasOnUpdate then [UpdateCallback] else [];
      assert succeeded;
      if hasOnUpdate {
        log := log + [UpdateCallback];
      }
      assert log == events;
      open := false;
    }

    /**
     * A press of the save button: `handleSubmit` validates the form and only
     * then calls `onSubmit`; a disabled button does nothing.
     */
    method Submit(form: AlertsForm, isDirty: bool, isSubmitting: bool, sensor: Option<SensorAlerts>, succeeds: Request -> bool)
      modifies this
      ensures !(SaveEnabled(isDirty, isSubmitting) && PassesValidation(form)) ==> open == old(open) && log == old(log)
      ensures SaveEnabled(isDirty, isSubmitting) && PassesValidation(form) ==>
        log == old(log) + SubmitEvents(PlannedRequests(sensorId, form, sensor), succeeds, hasOnUpdate)
        && open == (if Dispatch(PlannedRequests(sensorId, form, sensor), succeeds).allSucceeded then false else old(open))
    {
      if SaveEnabled(isDirty, isSubmitting) && PassesValidation(form) {
        OnSubmit(form, sensor, succeeds);
      }
    }
  }
}
