# Station join pipeline

A Dafny model of the "Join call" flow of the station side of a video-call
quality test page (`src/App.tsx`). One click fetches a credential from the
backend. If the credential has a user id and a token, the page creates a
calling client and a call agent. It then negotiates the camera and microphone,
which may mean asking for permission, raising an alert or reloading the page.
Finally it joins the meeting with one local video stream from the chosen
camera and copies the call's id into the page state, once.

Every answer from the calling SDK, the device manager and the authentication
endpoint is an input value (`App.SdkResults`): the auth response, the first
device enumeration, the permission answer, the enumeration after a grant, the
cameras enumerated at join time, and the id of the call that `join` returns.
What the page does that a user can observe goes into an effect log, in order:
`PromptPermission`, `Alert(message)`, `Reload` and `Join(cameraName)`.

Modules:

- `Wrappers`: `Option`, standing for `undefined`, `null` and falsy results.
- `Devices`: devices, the effect log, the lookup by camera name (`Find`) and
  the negotiation rule (`Negotiate`).
- `App`: the credential gate, the state snapshot, the pipeline as functions
  (`JoinCall`, `SetCallClient`, `JoinByName`, `LatchCallId`), and the class
  `Station`. Its fields are the React state, and it has one method per handler.
  Each method is proved to leave the state and the log the pipeline functions
  give.
- `Clicks`: runs of repeated clicks. There is no in-flight guard, and the
  button disappears once the call surface is shown (`src/App.tsx:157`).

The model keeps three behaviours of the code as written:

- `window.location.reload()` does not end the handler. After a grant that finds
  cameras but no microphone, the page alerts, reloads and still joins the first
  camera.
- Without a prompt, the first enumerated camera is joined, not the previously
  selected name.
- The permission decision reads `selectedCamera` as it was in the render that
  was clicked. `HandleJoinCall` reads the field once and passes it down.

The code has no guard against a second click while a run is still in flight
(`src/App.tsx:136-146`, `:170`), and no session state beyond the five state
hooks at `src/App.tsx:21-27`; the model adds neither.

## Model

| member | source | states |
|---|---|---|
| Devices.Find | src/App.tsx:52 | The result is None exactly when no camera has the given name. Otherwise it is a camera in the list with that exact name, and no earlier camera has that name. |
| Devices.FindDistinct | src/App.tsx:52 | When camera names are distinct, looking up a listed camera's name returns that camera. |
| Devices.Negotiate | src/App.tsx:73-112 | The prompt happens iff there are no cameras, or no microphones, or the selection is empty. A join is issued iff there was no prompt, or both audio and video were granted and the re-enumeration has a camera. At most one join is issued, and it is the last effect. With no prompt, `cameras[0]` is joined whatever was selected. A refusal of either modality gives prompt, "Permission denied", reload, and no join. After a grant with no camera: prompt, "No camera or microphone found", reload, no join. With cameras but no microphone: the same three effects and then a join of the first new camera. With both: prompt, then a join of the first new camera. |
| App.JoinByName | src/App.tsx:44-71 | The call carries the engine's id and exactly one local video stream. Its source is the first camera of the join-time enumeration with exactly that name, and it is None iff no camera has the name. |
| App.LatchCallId | src/App.tsx:29-33 | A non-empty call id is never replaced. Without a call nothing changes. An empty id takes the call's id. |
| App.SetCallClient | src/App.tsx:114-134 | The client is made for the caller id, and the agent for the token with display name "Dashboard". The effects are those of the negotiation. If no camera is chosen, the selection, the call and the call id are unchanged. Otherwise the selection becomes the chosen name, the call is the join by that name, and the call id is latched. |
| App.JoinCall | src/App.tsx:136-146 | Without a truthy user id and token, nothing changes and nothing happens. Otherwise client and agent are set and the negotiation's effects are issued. There is at most one join. No join means the selection, call and call id are unchanged. A join sets the selection and the call to that camera's join. A non-empty call id is kept, and an empty one takes the new call's id. Consistency is preserved. The call surface is shown afterwards iff there was already a call or a join was issued. |
| App.Station.constructor | src/App.tsx:21-27 | Every state hook starts at its initial value ("", "", null, null, null) and the log is empty. |
| App.Station.CallEffect | src/App.tsx:29-33 | The call id is copied from the call only when it is empty; once set it stays. |
| App.Station.HandleSetCall | src/App.tsx:44-71 | Appends `Join(name)` and sets `call` to the join by that name over the re-enumerated cameras. Then the call-id effect runs. |
| App.Station.HandleSelectCameraAndMicrophone | src/App.tsx:73-112 | Appends exactly the effects `Negotiate` decides. When a camera is chosen, sets `selectedCamera` and `call` to it and latches the call id. Otherwise those fields are unchanged. |
| App.Station.HandleSetCallClient | src/App.tsx:114-134 | The new state and the appended effects are those of `SetCallClient`. |
| App.Station.HandleJoinCall | src/App.tsx:136-146 | The new state and the appended effects are those of `JoinCall` from the state at the click. |
| Clicks.ClicksStayConsistent | src/App.tsx:136-146 | Every run of clicks from a consistent state ends consistent: a call only with a client and agent, and a call id only with a call. |
| Clicks.ClicksKeepCallId | src/App.tsx:29-33 | Once the call id is non-empty, no run of clicks changes it. |
| Clicks.ClicksIgnoredInCall | src/App.tsx:157-173 | While the call surface is shown there is no button, so clicks change nothing and issue nothing. |
| Clicks.ClicksJoinAtMostOnce | src/App.tsx:157-173 | Assuming every SDK call returns and each click's chain finishes before the next click: from a consistent state without a call, a run of clicks issues at most one join. If it issues one, the call surface is shown at the end; if not, there is still no call. |
| Clicks.InitialClicks | src/App.tsx:157 | Assuming every SDK call returns and each click's chain finishes before the next click: from the first render, the call surface is shown after a run of clicks iff exactly one join was issued. |

## Left out

- The calling SDK and the device manager. `createStatefulCallClient` and `createCallAgent` are modelled as records of the inputs they receive. `getDeviceManager`, `getCameras` and `getMicrophones` are modelled as enumerations passed in. `askDevicePermission` is an optional permission value, and `join` is the id of the call it returns. Connection, media and the call's own life are not modelled.
- `new LocalVideoStream(camera!)` when no camera has the name: the runtime behaviour is unknown. The model records the stream's source as `None` and still lets the join succeed, like every other SDK call; it does not model a throw here.
- SDK rejections and throws: each SDK call (`createCallAgent` at `src/App.tsx:122`, `askDevicePermission` at `:82`, `getCameras`/`getMicrophones` at `:50`, `:78-79`, `:88-89`, `new LocalVideoStream` and `join` at `:54-57`) is assumed to return. In the source a throw ends the chain silently and keeps what was already set, for example a `selectedCamera` set at `:97` without a call. A later click can then take the no-prompt branch at `:105-110` and issue a second join. The lemmas in `Clicks` hold only under this assumption.
- `window.location.reload()` is only logged. The page reset that follows is not modelled, and neither is any later event that could stop the handler.
- `alert` is only logged; the modal pause it causes is not modelled.
- The authentication request (`getAcsAuth` in `src/api/app.ts` with the station code "DashboardData") is network I/O. Only its result is modelled; an error object is an `AuthResponse` with no user id and no token. `getAcsToken` is not called by the core.
- Async scheduling in React: each click runs to completion as one sequential chain. Batched state setters, the closure rule beyond `selectedCamera`, and interleaved clicks are not modelled. The call-id effect runs right after `setCall`.
- The logging setup effect (`src/App.tsx:35-42`), the hard-coded meeting link, the page's markup and styling, and the call-id banner at `src/App.tsx:153-155`: none of these is logic of the flow.
- `src/components/VideoCallComponent.tsx`: view rendering over library-supplied props. Its hang-up wrapper catches and logs an error from a library handler that is not part of this model.
