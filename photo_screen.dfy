/** The camera-permission alert state machine of AniDex/PhotoScreen.swift and
    the tab selection of its bottom menu bar.

    The `@State` fields of `PhotoScreen` are the fields of a class; each
    handler is a method that takes what it asks the platform (is there a
    camera, what is the authorization status) as parameters. The completion
    handler passed to `AVCaptureDevice.requestAccess` is a separate event,
    `HandleAccessResponse`, which can only arrive after a request was issued. */
module PhotoScreen {

  /** Which alert is on screen, as far as the OK and Allow buttons care. */
  datatype CameraAlertContext = None | NotDetermined | Unavailable | DeniedOrRestricted

  /** `AVAuthorizationStatus`, and any value a later SDK may add. */
  datatype AuthorizationStatus = NotDetermined | Restricted | Denied | Authorized | Unknown(rawValue: int)

  /** The two tabs of the bottom menu bar. */
  datatype MenuTab = Photo | Anidex

  const UnavailableTitle := "Camera Unavailable"
  const UnavailableMessage := "This device does not have a camera."
  const PermissionTitle := "Camera Permission"
  const PermissionMessage := "This App needs camera access to take photos."
  const DeniedTitle := "Camera Access Denied"
  const DeniedMessage := "Enable camera access in Settings > Privacy > Camera to take photos."
  const ErrorTitle := "Camera Error"
  const ErrorMessage := "An unknown camera permission status occurred."

  /** The handlers always assign a title together with its own message, so the
      pair on screen is the initial empty pair or one of the four alerts. */
  predicate AlertTextMatches(title: string, message: string) {
    || (title == "" && message == "")
    || (title == UnavailableTitle && message == UnavailableMessage)
    || (title == PermissionTitle && message == PermissionMessage)
    || (title == DeniedTitle && message == DeniedMessage)
    || (title == ErrorTitle && message == ErrorMessage)
  }

  /** The title of the alert that sets a context. */
  function TitleFor(context: CameraAlertContext): string {
    match context
    case None => ""
    case NotDetermined => PermissionTitle
    case Unavailable => UnavailableTitle
    case DeniedOrRestricted => DeniedTitle
  }

  class PhotoScreen {
    var selectedTab: MenuTab
    var isShowingCamera: bool
    var showCameraAlert: bool
    var cameraAlertTitle: string
    var cameraAlertMessage: string
    var cameraAlertContext: CameraAlertContext
    /** How many `requestAccess` calls still await their completion handler. */
    ghost var pendingAccessRequests: nat

    /** The alert text is always a consistent title and message, and a context
        other than `.none` belongs to the alert on screen, except that an alert
        for an unknown status keeps the context of an earlier alert. */
    ghost predicate Valid()
      reads this
    {
      && AlertTextMatches(cameraAlertTitle, cameraAlertMessage)
      && (|| cameraAlertContext == CameraAlertContext.None
          || cameraAlertTitle == TitleFor(cameraAlertContext)
          || cameraAlertTitle == ErrorTitle)
    }

    /** The alert fields show `title` with `message` in `context`. */
    ghost predicate ShowsAlert(title: string, message: string, context: CameraAlertContext)
      reads this
    {
      showCameraAlert && cameraAlertTitle == title && cameraAlertMessage == message &&
      cameraAlertContext == context
    }

    /** The initial values of the `@State` declarations. */
    constructor ()
      ensures Valid()
      ensures selectedTab == MenuTab.Photo && !isShowingCamera && !showCameraAlert
      ensures cameraAlertTitle == "" && cameraAlertMessage == ""
      ensures cameraAlertContext == CameraAlertContext.None
      ensures pendingAccessRequests == 0
    {
      selectedTab := MenuTab.Photo;
      isShowingCamera := false;
      showCameraAlert := false;
      cameraAlertTitle := "";
      cameraAlertMessage := "";
      cameraAlertContext := CameraAlertContext.None;
      pendingAccessRequests := 0;
    }

    /** `handleTakePhotoTapped`, given whether the device has a camera and,
        when it has one, the camera authorization status. Without a camera the
        status plays no part and the camera is not presented. */
    method HandleTakePhotoTapped(cameraAvailable: bool, status: AuthorizationStatus)
      requires Valid()
      modifies this
      ensures Valid()
      ensures selectedTab == old(selectedTab)
      ensures pendingAccessRequests == old(pendingAccessRequests)
      ensures !cameraAvailable ==>
                && ShowsAlert(UnavailableTitle, UnavailableMessage, CameraAlertContext.Unavailable)
                && isShowingCamera == old(isShowingCamera)
      ensures cameraAvailable && status.Authorized? ==>
                && isShowingCamera
                && showCameraAlert == old(showCameraAlert)
                && cameraAlertTitle == old(cameraAlertTitle)
                && cameraAlertMessage == old(cameraAlertMessage)
                && cameraAlertContext == old(cameraAlertContext)
      ensures cameraAvailable && status.NotDetermined? ==>
                && ShowsAlert(PermissionTitle, PermissionMessage, CameraAlertContext.NotDetermined)
                && isShowingCamera == old(isShowingCamera)
      ensures cameraAvailable && (status.Denied? || status.Restricted?) ==>
                && ShowsAlert(DeniedTitle, DeniedMessage, CameraAlertContext.DeniedOrRestricted)
                && isShowingCamera == old(isShowingCamera)
      ensures cameraAvailable && status.Unknown? ==>
                && ShowsAlert(ErrorTitle, ErrorMessage, old(cameraAlertContext))
                && isShowingCamera == old(isShowingCamera)
    {
      if !cameraAvailable {
        cameraAlertTitle := UnavailableTitle;
        cameraAlertMessage := UnavailableMessage;
        cameraAlertContext := CameraAlertContext.Unavailable;
        showCameraAlert := true;
        return;
      }
      match status
      case Authorized =>
        isShowingCamera := true;
      case NotDetermined =>
        cameraAlertTitle := PermissionTitle;
        cameraAlertMessage := PermissionMessage;
        cameraAlertContext := CameraAlertContext.NotDetermined;
        showCameraAlert := true;
      case Denied =>
        ShowDeniedAlert();
      case Restricted =>
        ShowDeniedAlert();
      case Unknown(_) =>
        cameraAlertTitle := ErrorTitle;
        cameraAlertMessage := ErrorMessage;
        showCameraAlert := true;
    }

    /** The "Camera Access Denied" alert, shown both for a denied or restricted
        status and when the user refuses the access request. */
    method ShowDeniedAlert()
      modifies this`cameraAlertTitle, this`cameraAlertMessage, this`cameraAlertContext,
               this`showCameraAlert
      ensures ShowsAlert(DeniedTitle, DeniedMessage, CameraAlertContext.DeniedOrRestricted)
      ensures Valid()
    {
      cameraAlertTitle := DeniedTitle;
      cameraAlertMessage := DeniedMessage;
      cameraAlertContext := CameraAlertContext.DeniedOrRestricted;
      showCameraAlert := true;
    }

    /** `handleCameraAlertOkTapped`. In the permission alert it issues an
        access request (`requestsAccess`); in every alert it then clears the
        context. */
    method HandleCameraAlertOkTapped() returns (requestsAccess: bool)
      requires Valid()
      modifies this`cameraAlertContext, this`pendingAccessRequests
      ensures Valid()
      ensures requestsAccess <==> old(cameraAlertContext) == CameraAlertContext.NotDetermined
      ensures cameraAlertContext == CameraAlertContext.None
      ensures pendingAccessRequests == old(pendingAccessRequests) + if requestsAccess then 1 else 0
    {
      requestsAccess := false;
      if cameraAlertContext == CameraAlertContext.NotDetermined {
        requestsAccess := true;
        pendingAccessRequests := pendingAccessRequests + 1;
      }
      cameraAlertContext := CameraAlertContext.None;
    }

    /** The completion handler of `requestAccess`, run on the main queue:
        access granted presents the camera, access refused shows the denied
        alert. */
    method HandleAccessResponse(granted: bool)
      requires Valid() && pendingAccessRequests > 0
      modifies this
      ensures Valid()
      ensures pendingAccessRequests == old(pendingAccessRequests) - 1
      ensures selectedTab == old(selectedTab)
      ensures granted ==>
                && isShowingCamera
                && showCameraAlert == old(showCameraAlert)
                && cameraAlertTitle == old(cameraAlertTitle)
                && cameraAlertMessage == old(cameraAlertMessage)
                && cameraAlertContext == old(cameraAlertContext)
      ensures !granted ==>
                && ShowsAlert(DeniedTitle, DeniedMessage, CameraAlertContext.DeniedOrRestricted)
                && isShowingCamera == old(isShowingCamera)
    {
      pendingAccessRequests := pendingAccessRequests - 1;
      if granted {
        isShowingCamera := true;
      } else {
        ShowDeniedAlert();
      }
    }

    /** `isAllowEnabledForCurrentAlert`: the Allow button is enabled only in
        the denied-or-restricted context. */
    predicate IsAllowEnabledForCurrentAlert()
      reads this
    {
      cameraAlertContext == CameraAlertContext.DeniedOrRestricted
    }

    /** `handleCameraAlertAllowTapped`: it opens the app's settings
        (`opensSettings`) exactly when the button is enabled, and changes no
        state of the screen. */
    method HandleCameraAlertAllowTapped() returns (opensSettings: bool)
      ensures opensSettings <==> IsAllowEnabledForCurrentAlert()
      ensures opensSettings <==> cameraAlertContext == CameraAlertContext.DeniedOrRestricted
    {
      opensSettings := false;
      if cameraAlertContext == CameraAlertContext.DeniedOrRestricted {
        opensSettings := true;
      }
    }

    /** SwiftUI writes `false` through the `$showCameraAlert` binding when an
        alert button is tapped and the alert goes away. */
    method DismissAlert()
      requires Valid()
      modifies this`showCameraAlert
      ensures Valid()
      ensures !showCameraAlert
    {
      showCameraAlert := false;
    }
  }

  /** The bottom menu bar. Its `@Binding var selected` is the screen's
      `selectedTab`, so the bar holds the screen and writes through it. */
  class BottomMenuBar {
    const screen: PhotoScreen

    constructor (screen: PhotoScreen)
      ensures this.screen == screen
    {
      this.screen := screen;
    }

    /** `isSelected` of `menuButton(tab, ...)`. */
    predicate IsSelected(tab: MenuTab)
      reads screen
    {
      tab == screen.selectedTab
    }

    /** The action of `menuButton(tab, ...)`: afterwards exactly the tapped
        tab shows as selected, and nothing else on the screen changes. */
    method MenuButtonTapped(tab: MenuTab)
      modifies screen`selectedTab
      ensures screen.selectedTab == tab
      ensures forall t :: IsSelected(t) <==> t == tab
      ensures old(screen.Valid()) ==> screen.Valid()
    {
      screen.selectedTab := tab;
    }
  }

  /** Whichever tab is selected, exactly one of the two buttons shows selected. */
  lemma ExactlyOneTabSelected(bar: BottomMenuBar)
    ensures bar.IsSelected(MenuTab.Photo) != bar.IsSelected(MenuTab.Anidex)
  {
  }

  /** In every state the handlers can reach, an enabled Allow button belongs to
      the denied alert or to a "Camera Error" alert. */
  lemma AllowEnabledOnlyOnDeniedOrErrorAlert(photoScreen: PhotoScreen)
    requires photoScreen.Valid()
    ensures photoScreen.IsAllowEnabledForCurrentAlert() ==>
              photoScreen.cameraAlertTitle == DeniedTitle ||
              photoScreen.cameraAlertTitle == ErrorTitle
  {
  }

  /** The Allow button of a "Camera Error" alert can be enabled: an unknown
      status keeps the context of the alert before it. Here the denied alert
      is closed with Allow, which leaves its context in place, and the next
      tap on Take Photo meets an unknown status. */
  method AllowEnabledOnCameraErrorAlert() returns (title: string, allowEnabled: bool)
    ensures title == ErrorTitle && allowEnabled
  {
    var photoScreen := new PhotoScreen();
    photoScreen.HandleTakePhotoTapped(true, AuthorizationStatus.Denied);
    var opensSettings := photoScreen.HandleCameraAlertAllowTapped();
    photoScreen.DismissAlert();
    photoScreen.HandleTakePhotoTapped(true, AuthorizationStatus.Unknown(3));
    title := photoScreen.cameraAlertTitle;
    allowEnabled := photoScreen.IsAllowEnabledForCurrentAlert();
  }

  /** The first-launch flow: the permission alert, OK, and a refused request
      end on the denied alert with Allow enabled and the camera not shown. */
  method PermissionRefusedFlow() returns (title: string, allowEnabled: bool, cameraShown: bool)
    ensures title == DeniedTitle && allowEnabled && !cameraShown
  {
    var photoScreen := new PhotoScreen();
    photoScreen.HandleTakePhotoTapped(true, AuthorizationStatus.NotDetermined);
    photoScreen.DismissAlert();
    var requested := photoScreen.HandleCameraAlertOkTapped();
    photoScreen.HandleAccessResponse(false);
    title := photoScreen.cameraAlertTitle;
    allowEnabled := photoScreen.IsAllowEnabledForCurrentAlert();
    cameraShown := photoScreen.isShowingCamera;
  }
}
