/**
 * The page script's upload and create state: the state of the two upload
 * slots, the request that currently owns each slot, the create button's
 * `disabled` property and lock, and the offer locker's redirect URL.
 *
 * The page's elements (the slot containers, the create button with its
 * burst and loader, the loader overlay) are taken to exist; everything the
 * script does to classes, texts and timers is left out. Timer callbacks and
 * request events are the methods a caller invokes.
 */
module UploadGate {
  import opened JsText
  import ClientRoutes

  datatype Slot = Character | Video

  datatype UploadState = Idle | Uploading | Success | Error

  /** The strings of `UPLOAD_STATES`. */
  function StateName(s: UploadState): string
  {
    match s
    case Idle => "idle"
    case Uploading => "uploading"
    case Success => "success"
    case Error => "error"
  }

  /** The guard of `setUploadState`: which strings name a state. */
  function ParseState(name: string): (r: Option<UploadState>)
    ensures r.Some? ==> StateName(r.value) == name
    ensures r.None? ==> forall s: UploadState :: StateName(s) != name
  {
    if name == "idle" then Some(Idle)
    else if name == "uploading" then Some(Uploading)
    else if name == "success" then Some(Success)
    else if name == "error" then Some(Error)
    else None
  }

  /** How a request ended: the load event with its HTTP status and whether
      the body parsed to `{ success: true }`, a network error, or an abort. */
  datatype XhrEnd = Loaded(status: int, bodySuccess: bool) | NetworkError | Aborted

  /** The state the page's callbacks give a slot when its request ends:
      `onComplete` sets success, `onError` sets error. */
  function SettledState(end: XhrEnd): (s: UploadState)
    ensures s == Success <==> end == Loaded(200, true)
    ensures s != Success ==> s == Error
  {
    if end.Loaded? && end.status == 200 && end.bodySuccess then Success else Error
  }

  /** An `XMLHttpRequest`, which matters here only by its identity. */
  class Xhr {
    constructor ()
    {
    }
  }

  class UploadPage {
    /** `API_BASE_URL` */
    const apiBaseUrl: string
    /** `uploadState` */
    var uploadState: map<Slot, UploadState>
    /** `uploadXhr`: the request that currently owns each slot */
    var uploadXhr: map<Slot, Xhr?>
    var createButtonLocked: bool
    /** the create button's `disabled` property */
    var createDisabled: bool
    /** the offer locker's `redirectUrl`, once set */
    var redirectUrl: Option<string>

    predicate BothReady()
      reads this
    {
      && Character in uploadState && uploadState[Character] == Success
      && Video in uploadState && uploadState[Video] == Success
    }

    /** Both tables have both slots, and the create button is never enabled
        unless both uploads have succeeded. */
    ghost predicate Valid()
      reads this
    {
      && uploadState.Keys == {Character, Video}
      && uploadXhr.Keys == {Character, Video}
      && (!createDisabled ==> BothReady())
    }

    /** The page as loaded: both slots idle and unowned, the button synced
        (so disabled), not locked. */
    constructor (location: Option<ClientRoutes.Location>)
      ensures Valid()
      ensures apiBaseUrl == ClientRoutes.BackendOrigin(location)
      ensures uploadState == map[Character := Idle, Video := Idle]
      ensures uploadXhr == map[Character := null, Video := null]
      ensures !createButtonLocked && createDisabled && redirectUrl == None
    {
      apiBaseUrl := ClientRoutes.BackendOrigin(location);
      uploadState := map[Character := Idle, Video := Idle];
      uploadXhr := map[Character := null, Video := null];
      createButtonLocked := false;
      createDisabled := true;
      redirectUrl := None;
    }

    /** `syncCreateButton`: enabled exactly when both uploads succeeded. */
    method SyncCreateButton()
      requires uploadState.Keys == {Character, Video}
      modifies this`createDisabled
      ensures createDisabled == !BothReady()
    {
      var enabled := uploadState[Character] == Success && uploadState[Video] == Success;
      createDisabled := !enabled;
    }

    /** `setUploadState`: a name that is not a state changes nothing;
        otherwise the slot takes the state and the button is synced. */
    method SetUploadState(slot: Slot, name: string)
      requires Valid()
      modifies this`uploadState, this`createDisabled
      ensures Valid()
      ensures ParseState(name).None? ==>
        uploadState == old(uploadState) && createDisabled == old(createDisabled)
      ensures ParseState(name).Some? ==>
        uploadState == old(uploadState)[slot := ParseState(name).value] && createDisabled == !BothReady()
    {
      var state := ParseState(name);
      if state.None? {
        return;
      }
      uploadState := uploadState[slot := state.value];
      SyncCreateButton();
    }

    /** The load, error and abort handlers of a request: they act only while
        the request still owns its slot, and then release the slot before
        the page's callback sets the slot's final state. */
    method Settle(slot: Slot, xhr: Xhr, end: XhrEnd)
      requires Valid()
      modifies this`uploadState, this`uploadXhr, this`createDisabled
      ensures Valid()
      ensures old(uploadXhr[slot]) != xhr ==>
        uploadState == old(uploadState) && uploadXhr == old(uploadXhr) && createDisabled == old(createDisabled)
      ensures old(uploadXhr[slot]) == xhr ==>
        && uploadXhr == old(uploadXhr)[slot := null]
        && uploadState == old(uploadState)[slot := SettledState(end)]
        && createDisabled == !BothReady()
    {
      if uploadXhr[slot] != xhr {
        return;
      }
      uploadXhr := uploadXhr[slot := null];
      SetUploadState(slot, StateName(SettledState(end)));
    }

    /** The progress handler: while its request owns an uploading slot it
        re-sets the slot to uploading, which only re-syncs the button. */
    method Progress(slot: Slot, xhr: Xhr, lengthComputable: bool)
      requires Valid()
      modifies this`uploadState, this`createDisabled
      ensures Valid()
      ensures uploadState == old(uploadState)
      ensures createDisabled ==
        if lengthComputable && old(uploadXhr[slot]) == xhr && old(uploadState[slot]) == Uploading
        then true else old(createDisabled)
    {
      if !lengthComputable || uploadXhr[slot] != xhr || uploadState[slot] != Uploading {
        return;
      }
      SetUploadState(slot, StateName(Uploading));
    }

    /** `uploadWithProgress`: aborts the request that owns the slot, if any
        (its abort handler runs during `abort()` and still owns the slot),
        then starts a new request that owns the slot, which is uploading. */
    method UploadWithProgress(slot: Slot) returns (xhr: Xhr)
      requires Valid()
      modifies this`uploadState, this`uploadXhr, this`createDisabled
      ensures Valid()
      ensures fresh(xhr)
      ensures uploadXhr == old(uploadXhr)[slot := xhr]
      ensures uploadState == old(uploadState)[slot := Uploading]
      ensures createDisabled
    {
      var previous := uploadXhr[slot];
      if previous != null {
        Settle(slot, previous, Aborted);
        uploadXhr := uploadXhr[slot := null];
      }
      xhr := new Xhr();
      SetUploadState(slot, StateName(Uploading));
      uploadXhr := uploadXhr[slot := xhr];
    }

    /** The guard and lock of `startCreateProcess`: it starts only when the
        button is enabled, not locked, and both uploads succeeded, and then
        takes the lock. Under the page invariant the upload check is implied
        by the button check. */
    method StartCreateProcess() returns (started: bool)
      requires Valid()
      modifies this`createButtonLocked
      ensures Valid()
      ensures started == (!createDisabled && !old(createButtonLocked) && BothReady())
      ensures started == (!createDisabled && !old(createButtonLocked))
      ensures createButtonLocked == (old(createButtonLocked) || started)
    {
      if createDisabled || createButtonLocked {
        return false;
      }
      if uploadState[Character] != Success || uploadState[Video] != Success {
        return false;
      }
      createButtonLocked := true;
      started := true;
    }

    /** The last step of the create animation releases the lock. */
    method FinishCreateProcess()
      modifies this`createButtonLocked
      ensures !createButtonLocked
    {
      createButtonLocked := false;
    }

    /** `showCreateLoaderOverlay` when it opens: lock and disable. */
    method OpenLoaderOverlay()
      requires Valid()
      modifies this`createButtonLocked, this`createDisabled
      ensures Valid()
      ensures createButtonLocked && createDisabled
    {
      createButtonLocked := true;
      createDisabled := true;
    }

    /** `showCreateLoaderOverlay` when it closes: unlock and re-sync. */
    method CloseLoaderOverlay()
      requires Valid()
      modifies this`createButtonLocked, this`createDisabled
      ensures Valid()
      ensures !createButtonLocked && createDisabled == !BothReady()
    {
      createButtonLocked := false;
      createDisabled := !(uploadState[Character] == Success && uploadState[Video] == Success);
    }

    /** `setOfferCompleteRedirectUrl`; `encode` stands for
        `encodeURIComponent`. Anything but a non-empty string is ignored. */
    method SetOfferCompleteRedirectUrl(token: JsValue, encode: string -> string)
      modifies this`redirectUrl
      ensures !IsNonEmptyString(token) ==> redirectUrl == old(redirectUrl)
      ensures IsNonEmptyString(token) ==>
        redirectUrl == Some(ClientRoutes.OfferRedirectUrl(apiBaseUrl, encode(token.s)))
    {
      if !token.JsString? || token.s == "" {
        return;
      }
      redirectUrl := Some(ClientRoutes.OfferRedirectUrl(apiBaseUrl, encode(token.s)));
    }
  }

  /** A replaced upload's late events are ignored, and so are a finished
      upload's duplicate ones. */
  method StaleRequestScenario()
  {
    var page := new UploadPage(None);
    var first := page.UploadWithProgress(Character);
    var second := page.UploadWithProgress(Character);
    assert page.uploadXhr[Character] == second != first;
    page.Settle(Character, first, Loaded(200, true));
    assert page.uploadState[Character] == Uploading;
    page.Settle(Character, second, Loaded(200, true));
    assert page.uploadState[Character] == Success;
    assert page.uploadXhr[Character] == null;
    page.Settle(Character, second, NetworkError);
    assert page.uploadState[Character] == Success;
  }

  /** Create starts only after both uploads succeeded, and not again while
      it runs. */
  method CreateLockScenario()
  {
    var page := new UploadPage(None);
    var started := page.StartCreateProcess();
    assert !started;
    page.SetUploadState(Character, "success");
    page.SetUploadState(Video, "done");
    assert page.createDisabled;
    page.SetUploadState(Video, "success");
    assert !page.createDisabled;
    started := page.StartCreateProcess();
    assert started;
    started := page.StartCreateProcess();
    assert !started;
    page.FinishCreateProcess();
    started := page.StartCreateProcess();
    assert started;
  }
}
