/**
 * The call hook: the call-state record and the synthetic audio window it
 * owns, the pure updaters applied to the record, and the hook itself as a
 * class whose methods are the user commands and the client's events.
 *
 * The third-party call client, the session-token request, the clock and the
 * random sample values are inputs: each method receives what they produced.
 */
module UseRetellCall {
  import opened RetellTypes
  import AgentId

  /** How many audio samples the visualiser window keeps. */
  const MaxAudioLevels: nat := 50

  /** The message of an `error` event that carries none. */
  const ErrorEventFallback: string := "An error occurred"

  /** The message recorded when starting a call throws something that is not an `Error`. */
  const StartCallFallback: string := "Failed to start call"

  /** What a `catch` clause receives: an `Error` object with its message, or any other value. */
  datatype Thrown = ErrorObject(message: string) | OtherValue

  /** What the session-token request produced: a response, or the message of the `Error` it threw. */
  datatype WebCallOutcome = Created(response: CreateWebCallResponse) | CreateFailed(message: string)

  /** The state before any command or event: idle, no time elapsed, unmuted, volume 0.8, no error. */
  const InitialCallState: CallState := CallState(Idle, 0, false, 0.8, None)

  /**
   * What every reachable call state satisfies: an error status always carries
   * a message, and neither the idle nor the connecting status carries one.
   */
  predicate Consistent(s: CallState)
  {
    && (s.status == Error ==> s.error.Some?)
    && (s.status == Idle ==> s.error.None?)
    && (s.status == Connecting ==> s.error.None?)
  }

  // ---------------------------------------------------------------------
  // The updaters passed to setCallState
  // ---------------------------------------------------------------------

  /** `conversationStarted`: the call is up; nothing else changes. */
  function OnConversationStarted(prev: CallState): (next: CallState)
    ensures next.status == Connected
    ensures next.(status := prev.status) == prev
    ensures Consistent(prev) ==> Consistent(next)
  {
    prev.(status := Connected)
  }

  /** A tick of the duration timer records the elapsed seconds; nothing else changes. */
  function OnDurationTick(prev: CallState, elapsed: int): (next: CallState)
    ensures next.duration == elapsed
    ensures next.(duration := prev.duration) == prev
    ensures Consistent(prev) ==> Consistent(next)
  {
    prev.(duration := elapsed)
  }

  /**
   * `conversationEnded`, and both outcomes of `stopCall`: the status becomes
   * disconnected; the error, the duration and the settings are kept.
   */
  function OnDisconnected(prev: CallState): (next: CallState)
    ensures next.status == Disconnected
    ensures next.(status := prev.status) == prev
    ensures Consistent(prev) ==> Consistent(next)
  {
    prev.(status := Disconnected)
  }

  /**
   * An `error` event: the status becomes error and the error is the event's
   * message, or a fixed text when that is empty; duration, mute and volume are kept.
   */
  function OnErrorEvent(prev: CallState, message: string): (next: CallState)
    ensures next.status == Error
    ensures next.error.Some? && next.error.value != ""
    ensures message != "" ==> next.error.value == message
    ensures message == "" ==> next.error.value == ErrorEventFallback
    ensures next.(status := prev.status, error := prev.error) == prev
    ensures Consistent(next)
  {
    prev.(status := Error, error := Some(if message != "" then message else ErrorEventFallback))
  }

  /** The first step of `startCall`: connecting, with any earlier error cleared. */
  function OnConnecting(prev: CallState): (next: CallState)
    ensures next.status == Connecting && next.error.None?
    ensures next.(status := prev.status, error := prev.error) == prev
    ensures Consistent(next)
  {
    prev.(status := Connecting, error := None)
  }

  /** The message `startCall` records for a thrown value. */
  function FailureMessage(thrown: Thrown): (message: string)
    ensures thrown.ErrorObject? ==> message == thrown.message
    ensures thrown.OtherValue? ==> message == StartCallFallback
  {
    match thrown
    case ErrorObject(m) => m
    case OtherValue => StartCallFallback
  }

  /** `startCall` failed: the status becomes error with the failure's message. */
  function OnStartFailure(prev: CallState, thrown: Thrown): (next: CallState)
    ensures next.status == Error && next.error == Some(FailureMessage(thrown))
    ensures next.(status := prev.status, error := prev.error) == prev
    ensures Consistent(next)
  {
    prev.(status := Error, error := Some(FailureMessage(thrown)))
  }

  /** `toggleMute`: flips the mute flag and nothing else. */
  function OnToggleMute(prev: CallState): (next: CallState)
    ensures next.isMuted == !prev.isMuted
    ensures next.(isMuted := prev.isMuted) == prev
    ensures Consistent(prev) ==> Consistent(next)
  {
    prev.(isMuted := !prev.isMuted)
  }

  /** `setVolume`: replaces the volume and nothing else. */
  function OnSetVolume(prev: CallState, volume: real): (next: CallState)
    ensures next.volume == volume
    ensures next.(volume := prev.volume) == prev
    ensures Consistent(prev) ==> Consistent(next)
  {
    prev.(volume := volume)
  }

  /** Toggling mute twice restores the state. */
  lemma ToggleMuteTwice(s: CallState)
    ensures OnToggleMute(OnToggleMute(s)) == s
  {
  }

  /** Only the last volume set counts. */
  lemma SetVolumeLastWins(s: CallState, first: real, second: real)
    ensures OnSetVolume(OnSetVolume(s, first), second) == OnSetVolume(s, second)
  {
  }

  // ---------------------------------------------------------------------
  // The audio-sample window
  // ---------------------------------------------------------------------

  /** `s.slice(-n)` for `n > 0`: the last `n` elements, or all of `s` when it is shorter. */
  function KeepLast<T>(s: seq<T>, n: nat): (r: seq<T>)
    requires n > 0
    ensures |r| == if |s| <= n then |s| else n
    ensures r == s[|s| - |r|..]
  {
    if |s| <= n then s else s[|s| - n..]
  }

  /**
   * Appending a sample to the window: the sample becomes the newest entry and
   * the window keeps at most 50 entries, the newest ones of the previous window.
   */
  function AppendSample(window: seq<AudioLevel>, sample: AudioLevel): (next: seq<AudioLevel>)
    ensures |next| == if |window| < MaxAudioLevels then |window| + 1 else MaxAudioLevels
    ensures next[|next| - 1] == sample
    ensures next[..|next| - 1] == window[|window| - (|next| - 1)..]
  {
    var r := KeepLast(window + [sample], MaxAudioLevels);
    assert (window + [sample])[|window| + 1 - |r|..] == window[|window| - (|r| - 1)..] + [sample];
    r
  }

  /** Trimming to the last `n` before appending more does not change the last `n` after. */
  lemma KeepLastAbsorbs<T>(u: seq<T>, v: seq<T>, n: nat)
    requires n > 0
    ensures KeepLast(KeepLast(u, n) + v, n) == KeepLast(u + v, n)
  {
    if |u| > n {
      assert KeepLast(u, n) + v == (u + v)[|u| - n..];
    }
  }

  /** The window after a run of samples, appended one tick at a time. */
  function AppendSamples(window: seq<AudioLevel>, samples: seq<AudioLevel>): (next: seq<AudioLevel>)
    decreases |samples|
  {
    if samples == [] then window
    else AppendSamples(AppendSample(window, samples[0]), samples[1..])
  }

  /** However many ticks, the window holds exactly the newest 50 samples seen, in order. */
  lemma {:induction false} AppendSamplesKeepsNewest(window: seq<AudioLevel>, samples: seq<AudioLevel>)
    requires |window| <= MaxAudioLevels
    ensures AppendSamples(window, samples) == KeepLast(window + samples, MaxAudioLevels)
    decreases |samples|
  {
    if samples == [] {
      assert window + samples == window;
    } else {
      var x, rest := samples[0], samples[1..];
      var next := AppendSample(window, x);
      assert AppendSamples(window, samples) == KeepLast(next + rest, MaxAudioLevels) by {
        AppendSamplesKeepsNewest(next, rest);
      }
      assert KeepLast(next + rest, MaxAudioLevels) == KeepLast(window + samples, MaxAudioLevels) by {
        assert next == KeepLast(window + [x], MaxAudioLevels);
        KeepLastAbsorbs(window + [x], rest, MaxAudioLevels);
        assert window + [x] + rest == window + samples by {
          assert samples == [x] + rest;
        }
      }
    }
  }

  // ---------------------------------------------------------------------
  // Elapsed time
  // ---------------------------------------------------------------------

  /** `Math.floor((now - start) / 1000)`: whole seconds between two millisecond timestamps. */
  function ElapsedSeconds(start: int, now: int): (secs: int)
    ensures secs * 1000 <= now - start < secs * 1000 + 1000
    ensures start <= now ==> secs >= 0
  {
    (now - start) / 1000
  }

  /** The elapsed seconds never decrease as the clock advances. */
  lemma ElapsedSecondsMonotone(start: int, earlier: int, later: int)
    requires earlier <= later
    ensures ElapsedSeconds(start, earlier) <= ElapsedSeconds(start, later)
  {
  }

  // ---------------------------------------------------------------------
  // The hook
  // ---------------------------------------------------------------------

  /**
   * The state `useRetellCall` keeps between renders: the call state, the audio
   * window, the agent id, whether the call client exists, whether the duration
   * timer is running and when the conversation started.
   */
  class RetellCall {
    var callState: CallState
    var audioLevels: seq<AudioLevel>
    var agentId: string
    var clientReady: bool
    var timerRunning: bool
    var startTime: int

    /**
     * The window holds at most 50 samples, the call state is consistent, and
     * while idle no call has ever been up: no time, no samples, no timer.
     */
    ghost predicate Valid()
      reads this
    {
      && |audioLevels| <= MaxAudioLevels
      && Consistent(callState)
      && (callState.status == Idle ==> callState.duration == 0 && audioLevels == [] && !timerRunning)
    }

    /** The hook's first render. */
    constructor()
      ensures Valid()
      ensures callState == InitialCallState && audioLevels == [] && agentId == ""
      ensures !clientReady && !timerRunning && startTime == 0
    {
      callState := InitialCallState;
      audioLevels := [];
      agentId := "";
      clientReady := false;
      timerRunning := false;
      startTime := 0;
    }

    /** The mount effect that reads the agent id from the page's path. */
    method LoadAgentId(path: string)
      requires Valid()
      modifies this
      ensures Valid()
      ensures agentId == AgentId.AgentIdFromPath(path) && agentId != ""
      ensures callState == old(callState) && audioLevels == old(audioLevels)
      ensures clientReady == old(clientReady) && timerRunning == old(timerRunning) && startTime == old(startTime)
    {
      agentId := AgentId.AgentIdFromPath(path);
    }

    /** The effect that creates the call client and subscribes to its events. */
    method AttachClient()
      requires Valid()
      modifies this
      ensures Valid()
      ensures clientReady
      ensures callState == old(callState) && audioLevels == old(audioLevels) && agentId == old(agentId)
      ensures timerRunning == old(timerRunning) && startTime == old(startTime)
    {
      clientReady := true;
    }

    /** `conversationStarted`: connected, start time recorded, duration timer running. */
    method ConversationStarted(now: int)
      requires Valid()
      modifies this
      ensures Valid()
      ensures callState == OnConversationStarted(old(callState))
      ensures startTime == now && timerRunning
      ensures audioLevels == old(audioLevels) && agentId == old(agentId) && clientReady == old(clientReady)
    {
      callState := OnConversationStarted(callState);
      startTime := now;
      timerRunning := true;
    }

    /** A tick of the duration timer at time `now`; without a running timer nothing happens. */
    method DurationTick(now: int)
      requires Valid()
      modifies this
      ensures Valid()
      ensures old(timerRunning) ==> callState == OnDurationTick(old(callState), ElapsedSeconds(startTime, now))
      ensures !old(timerRunning) ==> callState == old(callState)
      ensures audioLevels == old(audioLevels) && agentId == old(agentId) && clientReady == old(clientReady)
      ensures timerRunning == old(timerRunning) && startTime == old(startTime)
    {
      if timerRunning {
        callState := OnDurationTick(callState, ElapsedSeconds(startTime, now));
      }
    }

    /** `conversationEnded`: disconnected, window emptied, duration timer stopped. */
    method ConversationEnded()
      requires Valid()
      modifies this
      ensures Valid()
      ensures callState == OnDisconnected(old(callState))
      ensures audioLevels == [] && !timerRunning
      ensures agentId == old(agentId) && clientReady == old(clientReady) && startTime == old(startTime)
    {
      callState := OnDisconnected(callState);
      audioLevels := [];
      timerRunning := false;
    }

    /** An `error` event from the call client with the given message. */
    method ErrorEvent(message: string)
      requires Valid()
      modifies this
      ensures Valid()
      ensures callState == OnErrorEvent(old(callState), message)
      ensures audioLevels == old(audioLevels) && agentId == old(agentId) && clientReady == old(clientReady)
      ensures timerRunning == old(timerRunning) && startTime == old(startTime)
    {
      callState := OnErrorEvent(callState, message);
    }

    /** A tick of the visualiser: the sample is appended only while connected. */
    method AudioTick(sample: AudioLevel)
      requires Valid()
      modifies this
      ensures Valid()
      ensures old(callState).status == Connected ==> audioLevels == AppendSample(old(audioLevels), sample)
      ensures old(callState).status != Connected ==> audioLevels == old(audioLevels)
      ensures callState == old(callState) && agentId == old(agentId) && clientReady == old(clientReady)
      ensures timerRunning == old(timerRunning) && startTime == old(startTime)
    {
      if callState.status == Connected {
        var next := AppendSample(audioLevels, sample);
        assert |next| <= MaxAudioLevels;
        audioLevels := next;
      }
    }

    /**
     * `startCall`, given what the token request and the client's start
     * produced (`sdkStart` is what the client threw, if anything). Without a
     * client or an agent id nothing happens. Otherwise the call is connecting
     * with no error, and a failure of either step turns it into an error.
     */
    method StartCall(created: WebCallOutcome, sdkStart: Option<Thrown>)
      requires Valid()
      modifies this
      ensures Valid()
      ensures !old(clientReady) || old(agentId) == "" ==> callState == old(callState)
      ensures old(clientReady) && old(agentId) != "" ==>
        match created
        case CreateFailed(m) => callState == OnStartFailure(OnConnecting(old(callState)), ErrorObject(m))
        case Created(_) =>
          if sdkStart.Some? then callState == OnStartFailure(OnConnecting(old(callState)), sdkStart.value)
          else callState == OnConnecting(old(callState))
      ensures audioLevels == old(audioLevels) && agentId == old(agentId) && clientReady == old(clientReady)
      ensures timerRunning == old(timerRunning) && startTime == old(startTime)
    {
      if !clientReady || agentId == "" {
        return;
      }
      callState := OnConnecting(callState);
      match created {
        case CreateFailed(message) =>
          callState := OnStartFailure(callState, ErrorObject(message));
        case Created(_) =>
          if sdkStart.Some? {
            callState := OnStartFailure(callState, sdkStart.value);
          }
      }
    }

    /**
     * `stopCall`, given what the client's stop threw, if anything. With a
     * client, the call always ends disconnected with an empty window; the
     * duration timer is stopped only when the client's stop succeeded.
     */
    method StopCall(sdkStop: Option<Thrown>)
      requires Valid()
      modifies this
      ensures Valid()
      ensures !old(clientReady) ==> callState == old(callState) && audioLevels == old(audioLevels)
      ensures !old(clientReady) ==> timerRunning == old(timerRunning)
      ensures old(clientReady) ==> callState == OnDisconnected(old(callState)) && audioLevels == []
      ensures old(clientReady) ==> timerRunning == (old(timerRunning) && sdkStop.Some?)
      ensures agentId == old(agentId) && clientReady == old(clientReady) && startTime == old(startTime)
    {
      if !clientReady {
        return;
      }
      match sdkStop {
        case None =>
          callState := OnDisconnected(callState);
          audioLevels := [];
          timerRunning := false;
        case Some(_) =>
          callState := OnDisconnected(callState);
          audioLevels := [];
      }
    }

    /** `toggleMute`. */
    method ToggleMute()
      requires Valid()
      modifies this
      ensures Valid()
      ensures callState == OnToggleMute(old(callState))
      ensures audioLevels == old(audioLevels) && agentId == old(agentId) && clientReady == old(clientReady)
      ensures timerRunning == old(timerRunning) && startTime == old(startTime)
    {
      callState := OnToggleMute(callState);
    }

    /** `setVolume`. */
    method SetVolume(volume: real)
      requires Valid()
      modifies this
      ensures Valid()
      ensures callState == OnSetVolume(old(callState), volume)
      ensures audioLevels == old(audioLevels) && agentId == old(agentId) && clientReady == old(clientReady)
      ensures timerRunning == old(timerRunning) && startTime == old(startTime)
    {
      callState := OnSetVolume(callState, volume);
    }
  }
}
