/**
 * Repeated use of the page: each click on "Join call" runs the whole pipeline
 * (there is no in-flight guard), and the button only exists while the render
 * gate at src/App.tsx:157 hides the call surface.
 */
module Clicks {
  import opened Devices
  import opened App

  /** A click: the button is rendered only while the call surface is not shown. */
  function Click(s: Snapshot, sdk: SdkResults): Outcome
  {
    if ShowsCallSurface(s) then Outcome(s, []) else JoinCall(s, sdk)
  }

  /** The clicks in `clicks`, one after the other, from state `s`. */
  function RunClicks(s: Snapshot, clicks: seq<SdkResults>): Outcome
    decreases clicks
  {
    if clicks == [] then Outcome(s, [])
    else
      var first := Click(s, clicks[0]);
      var rest := RunClicks(first.state, clicks[1..]);
      Outcome(rest.state, first.effects + rest.effects)
  }

  /** Consistency holds in every state a run of clicks reaches. */
  lemma {:induction false} ClicksStayConsistent(s: Snapshot, clicks: seq<SdkResults>)
    requires Consistent(s)
    ensures Consistent(RunClicks(s, clicks).state)
    decreases clicks
  {
    if clicks != [] {
      ClicksStayConsistent(Click(s, clicks[0]).state, clicks[1..]);
    }
  }

  /** Once the call id is set, no run of clicks overwrites it. */
  lemma {:induction false} ClicksKeepCallId(s: Snapshot, clicks: seq<SdkResults>)
    requires s.callId != ""
    ensures RunClicks(s, clicks).state.callId == s.callId
    decreases clicks
  {
    if clicks != [] {
      ClicksKeepCallId(Click(s, clicks[0]).state, clicks[1..]);
    }
  }

  /** With the call surface shown there is no button, so clicks change nothing. */
  lemma {:induction false} ClicksIgnoredInCall(s: Snapshot, clicks: seq<SdkResults>)
    requires ShowsCallSurface(s)
    ensures RunClicks(s, clicks) == Outcome(s, [])
    decreases clicks
  {
    if clicks != [] {
      ClicksIgnoredInCall(s, clicks[1..]);
    }
  }

  /**
   * From a state without a call, any run of clicks issues at most one join;
   * if it issues one, the call surface is shown at the end.
   */
  lemma {:induction false} ClicksJoinAtMostOnce(s: Snapshot, clicks: seq<SdkResults>)
    requires Consistent(s) && s.call.None?
    ensures |Joins(RunClicks(s, clicks).effects)| <= 1
    ensures Joins(RunClicks(s, clicks).effects) != [] ==> ShowsCallSurface(RunClicks(s, clicks).state)
    ensures Joins(RunClicks(s, clicks).effects) == [] ==> RunClicks(s, clicks).state.call.None?
    decreases clicks
  {
    if clicks != [] {
      var first := Click(s, clicks[0]);
      var rest := RunClicks(first.state, clicks[1..]);
      JoinsAppend(first.effects, rest.effects);
      if Joins(first.effects) != [] {
        ClicksIgnoredInCall(first.state, clicks[1..]);
      } else {
        ClicksJoinAtMostOnce(first.state, clicks[1..]);
      }
    }
  }

  /** From the first render, a run of clicks has joined exactly when the call surface is shown. */
  lemma InitialClicks(clicks: seq<SdkResults>)
    ensures var o := RunClicks(Initial, clicks);
      |Joins(o.effects)| <= 1 && Consistent(o.state) && (ShowsCallSurface(o.state) <==> Joins(o.effects) != [])
  {
    ClicksJoinAtMostOnce(Initial, clicks);
    ClicksStayConsistent(Initial, clicks);
  }
}
