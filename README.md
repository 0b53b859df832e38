# AniDex: classifier wrapper and camera-permission alerts, in Dafny

AniDex is an iOS app that classifies a photo on the device and shows the
labels with their confidence. This project models the two pieces of the app
that make decisions, and proves properties of them.

- `intelligence.dfy`, module `Intelligence`, covers `AniDex/Intelligence.swift`.
  `Analyze` is `Intelligence.analyze(image:topK:)` around the Vision call. Vision
  itself is a parameter `vision: (CGImage, CGImagePropertyOrientation) -> Inference`.
  An `Inference` is either "perform threw an error" or "perform returned, and
  `request.results` is missing, of the wrong type, or a list of classifications".
  The model has the source's guards in the source's order:
  1. a missing `cgImage` gives `invalidImage` before Vision is asked;
  2. an error thrown by Vision is propagated unchanged;
  3. missing, wrong-type or empty results give `analysisFailed`;
  4. otherwise the result is `prefix(topK).map`, one label per observation, in
     Vision's order.

  `BestLabelFor` is `bestLabel(for:)`. `CgImageOrientation` is the Swift
  `cgImageOrientation` switch. A reverse mapping, `UIImageOrientationOf`, is its
  partner: the two are proved inverse on the eight known cases.
- `photo_screen.dfy`, module `PhotoScreen`, covers `AniDex/PhotoScreen.swift`.
  The class `PhotoScreen` holds the screen's `@State` fields. Each handler is a
  method. It takes what it asks the platform as parameters: whether the device
  has a camera, and the `AVAuthorizationStatus`. The `requestAccess` completion
  handler is a separate event method, `HandleAccessResponse`. A ghost counter of
  outstanding requests means this event can only happen after the OK handler
  issued a request. `Valid()` is the invariant every handler keeps:
  - the alert title and message are always a matching pair;
  - a context other than `.none` matches the title, except after a "Camera
    Error" alert.
- `wrappers.dfy`: `Option` and `Result`.

The handler for an unknown authorization status sets the "Camera Error" text
but does not assign `cameraAlertContext`. An older context can therefore stay
in place. `AllowEnabledOnCameraErrorAlert` shows one sequence of events that
gives a "Camera Error" alert with its Allow button enabled. The model keeps
this behaviour as written, and `Valid()` allows for it.

## Model

| member | source | states |
|---|---|---|
| `Intelligence.PhotoAnalysis.BestLabel` | AniDex/Intelligence.swift:13-16 | the best label is absent exactly when there are no labels, and otherwise it is `labels[0]` |
| `Intelligence.CgImageOrientation` | AniDex/Intelligence.swift:66-79 | every unknown UIKit orientation maps to `.up` |
| `Intelligence.CgImageOrientationRoundTrip` | AniDex/Intelligence.swift:69-76 | on each of the 8 known cases, the reverse name mapping undoes the orientation mapping |
| `Intelligence.CgImageOrientationOnto` | AniDex/Intelligence.swift:69-76 | every Core Graphics orientation is the image of a known UIKit orientation of the same name |
| `Intelligence.CgImageOrientationInjective` | AniDex/Intelligence.swift:69-76 | two known orientations with the same Core Graphics orientation are equal |
| `Intelligence.CgImageOrientationUpPreimage` | AniDex/Intelligence.swift:69-77 | `.up` comes from `.up` itself or from an unknown value, and from nothing else |
| `Intelligence.LabelsFor` | AniDex/Intelligence.swift:51-53 | `prefix(topK).map`: gives `min(topK, n)` labels, and label `i` carries the identifier and the confidence of observation `i` |
| `Intelligence.Analyze` | AniDex/Intelligence.swift:30-55 | no `cgImage` gives `invalidImage`. Otherwise: a Vision error is propagated; missing, wrong-type or empty results give `analysisFailed`, and only those; usable results are the only success. On success there are `min(topK, n)` labels, at most `topK`, label `i` taken from observation `i` |
| `Intelligence.BestLabelFor` | AniDex/Intelligence.swift:58-61 | fails exactly when `analyze` with `topK = 1` fails, with the same error. On success it always has a label, built from Vision's first observation |
| `Intelligence.InvalidImageWhateverVision` | AniDex/Intelligence.swift:31 | with no `cgImage`, the outcome is `invalidImage` whatever Vision would answer |
| `Intelligence.LabelsForPrefix` | AniDex/Intelligence.swift:51 | the labels for a smaller `topK` are a prefix of those for a larger one |
| `Intelligence.AnalyzeTopKZero` | AniDex/Intelligence.swift:47-54 | with `topK = 0` and usable results, the analysis succeeds with no labels and no best label |
| `Intelligence.AnalyzeKeepsRanking` | AniDex/Intelligence.swift:51-54 | if Vision's observations are ranked by non-increasing confidence with scores in [0, 1], the labels are too, and the best label has the highest confidence |
| `PhotoScreen.PhotoScreen.constructor` | AniDex/PhotoScreen.swift:15-23 | the initial state: Photo tab, no camera, no alert, empty title and message, context `.none` |
| `PhotoScreen.PhotoScreen.HandleTakePhotoTapped` | AniDex/PhotoScreen.swift:177-204 | keeps `Valid()`. No camera: the "Camera Unavailable" alert with context `.unavailable`, whatever the status, camera not shown. Authorized: the camera is shown and the alert fields are unchanged. Not determined: the "Camera Permission" alert, context `.notDetermined`. Denied or restricted: the "Camera Access Denied" alert, context `.deniedOrRestricted`. Unknown: the "Camera Error" alert, context unchanged |
| `PhotoScreen.PhotoScreen.ShowDeniedAlert` | AniDex/PhotoScreen.swift:194-198 | shows the "Camera Access Denied" alert with its message and context `.deniedOrRestricted` |
| `PhotoScreen.PhotoScreen.HandleCameraAlertOkTapped` | AniDex/PhotoScreen.swift:244-263 | keeps `Valid()`. An access request is issued exactly when the prior context was `.notDetermined`. Afterwards the context is `.none`. No other field changes |
| `PhotoScreen.PhotoScreen.HandleAccessResponse` | AniDex/PhotoScreen.swift:247-257 | needs an outstanding request and keeps `Valid()`. Granted: the camera is shown and the alert is unchanged. Refused: the "Camera Access Denied" alert with context `.deniedOrRestricted` |
| `PhotoScreen.PhotoScreen.HandleCameraAlertAllowTapped` | AniDex/PhotoScreen.swift:265-273 | opens Settings exactly when `isAllowEnabledForCurrentAlert()` holds, which is exactly the `.deniedOrRestricted` context, and changes no state |
| `PhotoScreen.PhotoScreen.DismissAlert` | AniDex/PhotoScreen.swift:105-108 | the alert's `isPresented` binding becomes false, and `Valid()` is kept |
| `PhotoScreen.AllowEnabledOnlyOnDeniedOrErrorAlert` | AniDex/PhotoScreen.swift:271-273 | in a valid state, Allow is enabled only on the "Camera Access Denied" or the "Camera Error" alert |
| `PhotoScreen.AllowEnabledOnCameraErrorAlert` | AniDex/PhotoScreen.swift:199-202 | this sequence gives a "Camera Error" alert with Allow enabled: denied alert, Allow, dismiss, then an unknown status |
| `PhotoScreen.PermissionRefusedFlow` | AniDex/PhotoScreen.swift:189-256 | this sequence ends on the denied alert with Allow enabled and the camera not shown: permission alert, OK, then the request refused |
| `PhotoScreen.BottomMenuBar.constructor` | AniDex/PhotoScreen.swift:139-140 | the bar is bound to the screen whose `selectedTab` it shows |
| `PhotoScreen.BottomMenuBar.MenuButtonTapped` | AniDex/PhotoScreen.swift:155-159 | sets the screen's `selectedTab` to the tapped tab. Afterwards a button shows as selected exactly when its tab is the tapped one |
| `PhotoScreen.ExactlyOneTabSelected` | AniDex/PhotoScreen.swift:155-156 | exactly one of the two menu buttons shows as selected |

## Left out

- Vision inference (`VNClassifyImageRequest`, `VNImageRequestHandler.perform`) is a foreign library. It is the `vision` parameter of `Analyze`.
- Intelligence.Analyze: requires `topK >= 0`. Swift's `prefix` traps on a negative count. The source reaches that trap only after the `cgImage` and result checks, so for a negative `topK` it can still throw `invalidImage` or `analysisFailed`. The model does not say what happens then.
- Confidence is Swift's `Float`. It is modelled as an unbounded `real`, because it is only passed through.
- `LabelConfidence.id` gets a fresh `UUID` for each label. This identity is left out.
- The sort order of labels is not promised. The code never sorts; `AnalyzeKeepsRanking` shows that Vision's order is kept.
- Async and concurrency are left out: `withCheckedThrowingContinuation`, `DispatchQueue.global` and `DispatchQueue.main.async`, actor isolation, and the `Intelligence.shared` singleton. `Analyze` is a pure function, and the `requestAccess` callback is a separate event method.
- `saveImageToAppFolder` and the `onChange` hook that calls it are file-system I/O.
- `openAppSettings` calls `UIApplication`. It is the `opensSettings` result of `HandleCameraAlertAllowTapped`.
- The `CameraPicker` and `PhotoLibraryPicker` wrappers are UIKit and PhotosUI glue. So is the Upload button that sets `isShowingPhotoPicker`. Because those wrappers are left out, nothing in the model sets `isShowingCamera` back to false.
- All SwiftUI layout is left out: `body`, `TitleBlock`, and the bottom bar's styling. So is `AniDex/AniDexScreen.swift`, a static placeholder view.
