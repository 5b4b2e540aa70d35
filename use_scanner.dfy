/**
 * The camera hook (src/hooks/useScanner.js): four pieces of state
 * (`isScanning`, `scannedData`, `scanError`, `cameraStatus`) and the handle of
 * the camera-library instance, driven by start, the decode callback, stop and
 * reset.
 *
 * The camera library is an abstract device: what `getCameras`, `start` and
 * `stop`/`clear` do is given to each operation as its outcome. The asynchronous
 * start is split at its `await`s: `BeginStart` runs up to them, `CompleteStart`
 * runs with their outcomes.
 */
module UseScanner {
  import opened Json

  const Inactive: string := "inactive"
  const Starting: string := "starting"
  const Active: string := "active"
  const Scanned: string := "scanned"
  const Failed: string := "error"

  const NoCamerasMessage: string := "No se encontraron cámaras disponibles"
  const StopFailedMessage: string := "Error al detener el scanner"

  /** The frame rate and the square scan box passed to the camera (lines 25-28). */
  const Fps: nat := 10
  const QrBox: nat := 250

  datatype Camera = Camera(id: string)

  /** What the scanner is started with. */
  datatype StartConfig = StartConfig(cameraId: string, fps: nat, qrbox: nat)

  /** One camera frame: a decoded QR text, or a per-frame decode failure. */
  datatype Frame = Decoded(text: string) | NoCode(message: string)

  /** The camera statuses the hook sets. */
  predicate KnownStatus(s: string) {
    s == Inactive || s == Starting || s == Active || s == Scanned || s == Failed
  }

  /** Lines 19-58: the message a failed start shows, if it fails. The camera
      list failing, the list being empty, or `start` failing each fail it; the
      first camera is the one started. */
  function StartFailure(cameras: Result<seq<Camera>>, started: Option<Error>): (r: Option<string>)
    ensures cameras.Fail? ==> r == Some(cameras.error.message)
    ensures cameras.Ok? && |cameras.value| == 0 ==> r == Some(NoCamerasMessage)
    ensures cameras.Ok? && |cameras.value| > 0 ==>
      (r == None <==> started == None)
      && (started.Some? ==> r == Some(started.value.message))
  {
    match cameras
    case Fail(e) => Some(e.message)
    case Ok(list) =>
      if |list| == 0 then Some(NoCamerasMessage)
      else if started.Some? then Some(started.value.message)
      else None
  }

  class ScannerHook {
    var isScanning: bool
    var scannedData: Option<string>
    var scanError: string
    var cameraStatus: string
    /** `scannerRef.current` is set; it is set on the first start and never cleared. */
    var hasInstance: bool

    /** The status is one the hook sets, and scanning needs a camera instance. */
    predicate Valid()
      reads this
    {
      KnownStatus(cameraStatus) && (isScanning ==> hasInstance)
    }

    /** Lines 5-9. */
    constructor ()
      ensures Valid()
      ensures !isScanning && scannedData == None && scanError == "" && cameraStatus == Inactive
      ensures !hasInstance
    {
      isScanning := false;
      scannedData := None;
      scanError := "";
      cameraStatus := Inactive;
      hasInstance := false;
    }

    /** Lines 13-17: the error is cleared, the status is `starting` and a new
        camera instance is created. */
    method BeginStart()
      requires Valid()
      modifies this
      ensures Valid()
      ensures scanError == "" && cameraStatus == Starting && hasInstance
      ensures isScanning == old(isScanning) && scannedData == old(scannedData)
    {
      scanError := "";
      cameraStatus := Starting;
      hasInstance := true;
    }

    /** Lines 19-58, after the camera list and `start` have answered: the first
        camera is started at 10 frames per second with a 250-pixel box; success
        sets scanning and `active`, any failure shows its message and `error`. */
    method CompleteStart(cameras: Result<seq<Camera>>, started: Option<Error>)
      returns (config: Option<StartConfig>)
      requires Valid() && hasInstance
      modifies this
      ensures Valid() && hasInstance && scannedData == old(scannedData)
      ensures config.Some? <==> cameras.Ok? && |cameras.value| > 0
      ensures config.Some? ==> config.value == StartConfig(cameras.value[0].id, Fps, QrBox)
      ensures StartFailure(cameras, started) == None ==>
        isScanning && cameraStatus == Active && scanError == old(scanError)
      ensures StartFailure(cameras, started).Some? ==>
        isScanning == old(isScanning) && cameraStatus == Failed
        && scanError == StartFailure(cameras, started).value
    {
      config := None;
      if cameras.Ok? && |cameras.value| > 0 {
        config := Some(StartConfig(cameras.value[0].id, Fps, QrBox));
      }
      var failure := StartFailure(cameras, started);
      if failure == None {
        isScanning := true;
        cameraStatus := Active;
      } else {
        scanError := failure.value;
        cameraStatus := Failed;
      }
    }

    /** Lines 29-47: a decoded text is recorded and the status becomes
        `scanned`; the camera is then stopped, and only a stop that succeeds
        ends scanning (a failing one is only logged). A frame without a code
        changes nothing. */
    method OnFrame(frame: Frame, stopped: Option<Error>)
      requires Valid()
      modifies this
      ensures Valid() && hasInstance == old(hasInstance) && scanError == old(scanError)
      ensures frame.NoCode? ==>
        isScanning == old(isScanning) && scannedData == old(scannedData)
        && cameraStatus == old(cameraStatus)
      ensures frame.Decoded? ==>
        scannedData == Some(frame.text) && cameraStatus == Scanned
        && isScanning == (old(isScanning) && !(hasInstance && stopped == None))
    {
      match frame {
        case NoCode(_) =>
        case Decoded(text) =>
          scannedData := Some(text);
          cameraStatus := Scanned;
          if hasInstance && stopped == None {
            isScanning := false;
          }
      }
    }

    /** Lines 62-75: only a running scanner with an instance is stopped; a
        successful stop ends scanning with status `inactive`, a failing one
        leaves it running and shows the stop error. */
    method StopScanner(stopped: Option<Error>)
      requires Valid()
      modifies this
      ensures Valid() && hasInstance == old(hasInstance) && scannedData == old(scannedData)
      ensures !(old(hasInstance) && old(isScanning)) ==>
        isScanning == old(isScanning) && scanError == old(scanError)
        && cameraStatus == old(cameraStatus)
      ensures old(hasInstance) && old(isScanning) && stopped == None ==>
        !isScanning && cameraStatus == Inactive && scanError == old(scanError)
      ensures old(hasInstance) && old(isScanning) && stopped.Some? ==>
        isScanning && cameraStatus == old(cameraStatus) && scanError == StopFailedMessage
    {
      if hasInstance && isScanning {
        if stopped == None {
          isScanning := false;
          cameraStatus := Inactive;
        } else {
          scanError := StopFailedMessage;
        }
      }
    }

    /** Lines 77-81: scanned data and error are cleared and the status is
        `inactive`; whether the camera is scanning is left as it is. */
    method ResetScanner()
      requires Valid()
      modifies this
      ensures Valid()
      ensures scannedData == None && scanError == "" && cameraStatus == Inactive
      ensures isScanning == old(isScanning) && hasInstance == old(hasInstance)
    {
      scannedData := None;
      scanError := "";
      cameraStatus := Inactive;
    }
  }
}
