/** The guards and the batch loop of server/controllers/aiController.js. */
module AiController {
  import opened Common
  import opened Http
  import opened ErrorHandler

  /** The four per-device handlers and the words each uses in its refusal. */
  datatype DeviceAction = TrainModel | GetPredictions | DetectAnomalies | ViewEfficiency

  function ActionText(a: DeviceAction): string
  {
    match a
    case TrainModel => "train model"
    case GetPredictions => "get predictions"
    case DetectAnomalies => "detect anomalies"
    case ViewEfficiency => "view efficiency"
  }

  function DeviceNotFound(deviceId: string): ErrorResponse
  {
    ErrorResponse("Device not found with id of " + deviceId, NotFound)
  }

  /** The `CastError` that `Device.findById` rejects with for an id Mongoose cannot
      cast to an ObjectId. */
  function CastFailure(deviceId: string): ThrownError
  {
    ThrownError("CastError", None, deviceId, Some("Cast to ObjectId failed"), None, [])
  }

  /** The access check of the per-device handlers, on the device's owner: a malformed
      id is answered as the error middleware answers a cast error, an unknown device
      is 404, and the rest is 401 unless the caller owns the device or is an admin. */
  function DeviceAccess(deviceId: string, owner: Option<string>, caller: Caller, action: DeviceAction): (r: Result<(), ErrorResponse>)
    ensures r.Ok? <==> IsObjectId(deviceId) && owner.Some? && (owner.value == caller.id || IsAdmin(caller))
    ensures !IsObjectId(deviceId) ==> r == Err(ErrorResponse("Resource not found with id of " + deviceId, NotFound))
    ensures IsObjectId(deviceId) && owner.None? ==> r == Err(DeviceNotFound(deviceId))
    ensures IsObjectId(deviceId) && owner.Some? && r.Err? ==>
      r.error == ErrorResponse("User " + caller.id + " is not authorized to " + ActionText(action) + " for this device",
                               Unauthorized)
  {
    if !IsObjectId(deviceId) then Err(Answered(CastFailure(deviceId)))
    else if owner.None? then Err(DeviceNotFound(deviceId))
    else if owner.value != caller.id && !IsAdmin(caller) then
      Err(ErrorResponse("User " + caller.id + " is not authorized to " + ActionText(action) + " for this device",
                        Unauthorized))
    else Ok(())
  }

  /** The check as written: it calls `device.user.toString()`, and the Device schema
      has no `user` path, so for every existing device the call throws a `TypeError`
      that the async wrapper hands to the error middleware, which answers 500. */
  function DeviceAccessAsWritten(deviceId: string, owner: Option<string>, caller: Caller, action: DeviceAction): Result<(), ErrorResponse>
  {
    if !IsObjectId(deviceId) then Err(Answered(CastFailure(deviceId)))
    else if owner.None? then Err(DeviceNotFound(deviceId))
    else Err(ErrorResponse(UndefinedToString, ServerError))
  }

  /** As written, even the owner and an admin are refused, with a server error. */
  lemma AsWrittenRefusesEveryone(deviceId: string, owner: string, caller: Caller, action: DeviceAction)
    requires IsObjectId(deviceId) && (caller.id == owner || IsAdmin(caller))
    ensures DeviceAccess(deviceId, Some(owner), caller, action) == Ok(())
    ensures DeviceAccessAsWritten(deviceId, Some(owner), caller, action).Err?
    ensures DeviceAccessAsWritten(deviceId, Some(owner), caller, action).error.statusCode == ServerError
  {
  }

  /** One entry of the batch result. */
  datatype BatchEntry =
    | Success(deviceId: string, anomaliesDetected: nat)
    | Failure(deviceId: string, error: string)

  const Concurrency := 5

  /** The entry for one device, given what anomaly detection did for it: the number of
      anomalies found, or the message of the error it threw. */
  function EntryFor(deviceId: string, outcome: Result<nat, string>): (e: BatchEntry)
    ensures e.deviceId == deviceId
    ensures e.Success? <==> outcome.Ok?
    ensures e.Success? ==> e.anomaliesDetected == outcome.value
    ensures e.Failure? ==> e.error == outcome.error
  {
    match outcome
    case Ok(n) => Success(deviceId, n)
    case Err(m) => Failure(deviceId, m)
  }

  /** `processBatch`: one entry per device of the batch, in the batch's order. */
  function ProcessBatch(batch: seq<string>, detect: string -> Result<nat, string>): (es: seq<BatchEntry>)
    ensures |es| == |batch|
    ensures forall k :: 0 <= k < |batch| ==> es[k] == EntryFor(batch[k], detect(batch[k]))
  {
    if batch == [] then [] else [EntryFor(batch[0], detect(batch[0]))] + ProcessBatch(batch[1..], detect)
  }

  function Flatten<T>(xss: seq<seq<T>>): seq<T>
  {
    if xss == [] then [] else Flatten(xss[..|xss| - 1]) + xss[|xss| - 1]
  }

  /** Every batch holds one to five devices, and only the last may hold fewer than five. */
  ghost predicate WellBatched(batches: seq<seq<string>>)
  {
    (forall b :: 0 <= b < |batches| ==> 1 <= |batches[b]| <= Concurrency)
    && (forall b :: 0 <= b < |batches| - 1 ==> |batches[b]| == Concurrency)
  }

  /** Processing the devices up to `end` is processing them up to `i`, then the slice. */
  lemma ProcessSlices(devices: seq<string>, i: nat, end: nat, detect: string -> Result<nat, string>)
    requires i <= end <= |devices|
    ensures devices[..end] == devices[..i] + devices[i..end]
    ensures ProcessBatch(devices[..end], detect) == ProcessBatch(devices[..i], detect) + ProcessBatch(devices[i..end], detect)
  {
    assert devices[..end] == devices[..i] + devices[i..end];
    ProcessBatchAppend(devices[..i], devices[i..end], detect);
  }

  lemma FlattenSnoc<T>(xss: seq<seq<T>>, xs: seq<T>)
    ensures Flatten(xss + [xs]) == Flatten(xss) + xs
  {
    assert (xss + [xs])[..|xss|] == xss;
  }

  /** A full batch may be followed by another batch of one to five devices. */
  lemma WellBatchedSnoc(batches: seq<seq<string>>, batch: seq<string>)
    requires WellBatched(batches)
    requires |batches| > 0 ==> |batches[|batches| - 1]| == Concurrency
    requires 1 <= |batch| <= Concurrency
    ensures WellBatched(batches + [batch])
  {
    var next := batches + [batch];
    forall b | 0 <= b < |next| ensures 1 <= |next[b]| <= Concurrency {
      if b < |batches| { assert next[b] == batches[b]; }
    }
    forall b | 0 <= b < |next| - 1 ensures |next[b]| == Concurrency {
      assert next[b] == batches[b];
    }
  }

  lemma {:induction false} ProcessBatchAppend(a: seq<string>, b: seq<string>, detect: string -> Result<nat, string>)
    ensures ProcessBatch(a + b, detect) == ProcessBatch(a, detect) + ProcessBatch(b, detect)
  {
    var lhs, rhs := ProcessBatch(a + b, detect), ProcessBatch(a, detect) + ProcessBatch(b, detect);
    assert |lhs| == |rhs|;
    forall k | 0 <= k < |lhs|
      ensures lhs[k] == rhs[k]
    {
      if k < |a| {
        assert (a + b)[k] == a[k];
      } else {
        assert (a + b)[k] == b[k - |a|];
      }
    }
  }

  /** `batchProcessAnomalies`: admins only; the devices go through `processBatch` five
      at a time, and the result lists one entry per device in device order. The ghost
      `batches` records the slices the loop took. */
  method BatchProcessAnomalies(caller: Caller, devices: seq<string>, detect: string -> Result<nat, string>)
    returns (r: Result<seq<BatchEntry>, ErrorResponse>, ghost batches: seq<seq<string>>)
    ensures !IsAdmin(caller) ==> r == Err(ErrorResponse("Not authorized to perform this action", Forbidden))
    ensures IsAdmin(caller) ==> r == Ok(ProcessBatch(devices, detect))
    ensures IsAdmin(caller) ==> Flatten(batches) == devices
    ensures WellBatched(batches)
  {
    batches := [];
    if !IsAdmin(caller) {
      return Err(ErrorResponse("Not authorized to perform this action", Forbidden)), batches;
    }
    var results: seq<BatchEntry> := [];
    var i := 0;
    while i < |devices|
      invariant 0 <= i <= |devices|
      invariant results == ProcessBatch(devices[..i], detect)
      invariant Flatten(batches) == devices[..i]
      invariant WellBatched(batches)
      invariant |batches| > 0 && i < |devices| ==> |batches[|batches| - 1]| == Concurrency
    {
      var end := if i + Concurrency < |devices| then i + Concurrency else |devices|;
      var batch := devices[i..end];
      ProcessSlices(devices, i, end, detect);
      results := results + ProcessBatch(batch, detect);
      FlattenSnoc(batches, batch);
      WellBatchedSnoc(batches, batch);
      batches := batches + [batch];
      i := end;
    }
    assert devices[..|devices|] == devices;
    r := Ok(results);
  }
}
