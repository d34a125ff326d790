/**
 * Device negotiation of the station page: the name lookup over an enumerated
 * camera list, the log of externally visible effects, and the decision rule of
 * handleSelectCameraAndMicrophone (src/App.tsx:73-112) with the device manager's
 * results passed in as values.
 */
module Devices {
  import opened Wrappers

  /** A camera or microphone as the device manager enumerates it. */
  datatype Device = Device(id: string, name: string)

  /** One enumeration: the cameras and microphones reported by the device manager. */
  datatype Enumeration = Enumeration(cameras: seq<Device>, microphones: seq<Device>)

  /** The granted modalities reported by askDevicePermission. */
  datatype Permission = Permission(audio: bool, video: bool)

  /** What the page does that a user can observe, in the order it does it. */
  datatype Effect =
    | PromptPermission        // askDevicePermission({audio: true, video: true})
    | Alert(message: string)  // window.alert
    | Reload                  // window.location.reload(), which does not stop the handler
    | Join(camera: string)    // handleSetCall issued with this camera name

  const PermissionDeniedMessage: string := "Permission denied"
  const NoDeviceMessage: string := "No camera or microphone found"

  /** The camera names of the joins in an effect log, in order. */
  function Joins(effects: seq<Effect>): seq<string>
  {
    if effects == [] then []
    else (if effects[0].Join? then [effects[0].camera] else []) + Joins(effects[1..])
  }

  lemma {:induction false} JoinsAppend(a: seq<Effect>, b: seq<Effect>)
    ensures Joins(a + b) == Joins(a) + Joins(b)
  {
    if a == [] {
      assert a + b == b;
    } else {
      assert (a + b)[0] == a[0];
      assert (a + b)[1..] == a[1..] + b;
      JoinsAppend(a[1..], b);
    }
  }

  /**
   * `cameras.find((camera) => camera.name === name)`: the first camera whose
   * name is exactly `name`, or None when there is none.
   */
  function Find(cameras: seq<Device>, name: string): (r: Option<Device>)
    ensures r.None? <==> forall i :: 0 <= i < |cameras| ==> cameras[i].name != name
    ensures r.Some? ==> exists k :: 0 <= k < |cameras| && cameras[k] == r.value && IsFirstNamed(cameras, name, k)
  {
    if cameras == [] then None
    else if cameras[0].name == name then Some(cameras[0])
    else
      var r := Find(cameras[1..], name);
      assert r.Some? ==> exists k :: 0 <= k < |cameras| && cameras[k] == r.value && IsFirstNamed(cameras, name, k) by {
        if r.Some? {
          var k :| 0 <= k < |cameras[1..]| && cameras[1..][k] == r.value && IsFirstNamed(cameras[1..], name, k);
          assert cameras[k + 1] == r.value && IsFirstNamed(cameras, name, k + 1);
        }
      }
      r
  }

  /** Position `k` holds the first camera called `name`. */
  predicate IsFirstNamed(cameras: seq<Device>, name: string, k: nat)
  {
    k < |cameras| && cameras[k].name == name && forall j :: 0 <= j < k ==> cameras[j].name != name
  }

  /**
   * When all names are distinct, looking up a listed camera's name yields that
   * very camera; this follows from Find's contract.
   */
  lemma FindDistinct(cameras: seq<Device>, k: nat)
    requires k < |cameras|
    requires forall i, j :: 0 <= i < j < |cameras| ==> cameras[i].name != cameras[j].name
    ensures Find(cameras, cameras[k].name) == Some(cameras[k])
  {
  }

  /** The condition at src/App.tsx:81 under which the page asks for permission. */
  predicate NeedsPrompt(first: Enumeration, selected: string)
  {
    |first.cameras| == 0 || |first.microphones| == 0 || selected == ""
  }

  /** `permission && permission.audio && permission.video`; None is a falsy answer. */
  predicate Granted(permission: Option<Permission>)
  {
    permission.Some? && permission.value.audio && permission.value.video
  }

  /**
   * What handleSelectCameraAndMicrophone decides: the effects it issues (the
   * join included) and the camera name it selects and joins with, if any.
   */
  datatype Negotiation = Negotiation(effects: seq<Effect>, chosen: Option<string>)

  /**
   * The decision rule of src/App.tsx:81-111, given the first enumeration, the
   * camera name selected in the clicked render, the permission answer and the
   * enumeration made after a grant.
   */
  function Negotiate(first: Enumeration, selected: string, permission: Option<Permission>, regranted: Enumeration): (n: Negotiation)
    // the prompt happens exactly when a device list is empty or nothing is selected
    ensures PromptPermission in n.effects <==> NeedsPrompt(first, selected)
    // a join is issued exactly when no prompt was needed, or a grant found a camera
    ensures n.chosen.Some? <==> !NeedsPrompt(first, selected) || (Granted(permission) && |regranted.cameras| > 0)
    // the selected camera is joined exactly once, and last
    ensures Joins(n.effects) == if n.chosen.Some? then [n.chosen.value] else []
    ensures n.chosen.Some? ==> n.effects[|n.effects| - 1] == Join(n.chosen.value)
    // without a prompt the first camera is taken, whatever name was selected before
    ensures !NeedsPrompt(first, selected) ==> n.chosen == Some(first.cameras[0].name) && n.effects == [Join(first.cameras[0].name)]
    // a refusal of either modality alerts and reloads, and nothing is joined
    ensures NeedsPrompt(first, selected) && !Granted(permission) ==>
      n.effects == [PromptPermission, Alert(PermissionDeniedMessage), Reload] && n.chosen.None?
    // after a grant the first re-enumerated camera is taken
    ensures NeedsPrompt(first, selected) && Granted(permission) && |regranted.cameras| > 0 ==>
      n.chosen == Some(regranted.cameras[0].name)
    // after a grant, no camera alerts and reloads, and nothing is joined
    ensures NeedsPrompt(first, selected) && Granted(permission) && |regranted.cameras| == 0 ==>
      n.effects == [PromptPermission, Alert(NoDeviceMessage), Reload]
    // after a grant, cameras without microphones alert and reload, and the first camera is joined all the same
    ensures NeedsPrompt(first, selected) && Granted(permission) && |regranted.cameras| > 0 && |regranted.microphones| == 0 ==>
      n.effects == [PromptPermission, Alert(NoDeviceMessage), Reload, Join(regranted.cameras[0].name)]
    ensures NeedsPrompt(first, selected) && Granted(permission) && |regranted.cameras| > 0 && |regranted.microphones| > 0 ==>
      n.effects == [PromptPermission, Join(regranted.cameras[0].name)]
  {
    if NeedsPrompt(first, selected) then
      if Granted(permission) then
        var alerted := if |regranted.cameras| == 0 || |regranted.microphones| == 0 then [Alert(NoDeviceMessage), Reload] else [];
        if |regranted.cameras| > 0 then
          var name := regranted.cameras[0].name;
          var effects := [PromptPermission] + alerted + [Join(name)];
          JoinsAppend([PromptPermission] + alerted, [Join(name)]);
          JoinsAppend([PromptPermission], alerted);
          assert Joins(alerted) == [] by {
            if alerted != [] {
              assert alerted[1..] == [Reload];
              assert Joins([Reload]) == [];
            }
          }
          assert Joins([Join(name)]) == [name];
          Negotiation(effects, Some(name))
        else
          Negotiation([PromptPermission] + alerted, None)
      else
        Negotiation([PromptPermission, Alert(PermissionDeniedMessage), Reload], None)
    else
      Negotiation([Join(first.cameras[0].name)], Some(first.cameras[0].name))
  }
}
