/**
 * The CarPlay scene: connecting and disconnecting the car's interface, the
 * bounded cold-start retry that waits for the server configuration, the
 * guard that keeps Now Playing from being pushed twice, and the chapter and
 * speed lists shown from the Now Playing buttons.
 *
 * The interface controller is modelled by whether it is present and by its
 * template stack (the root tab bar first, the top template last); delayed
 * main-queue blocks are counted as pending and run by the `...Fired` methods.
 */
module SceneDelegate {
  import opened Wrappers
  import opened Text
  import Player

  const MaxColdStartRetries: nat := 10
  /** The n-th retry waits n times this many milliseconds. */
  const RetryStepMs: nat := 500

  // ---------------------------------------------------------------------
  // Cold-start retry schedule

  /** The delays of the retries still to come after `count` have been scheduled, if the config never appears. */
  function RetryChain(count: nat): (delays: seq<nat>)
    decreases MaxColdStartRetries - count
  {
    if count >= MaxColdStartRetries then [] else [(count + 1) * RetryStepMs] + RetryChain(count + 1)
  }

  lemma {:induction false} RetryChainShape(count: nat)
    requires count <= MaxColdStartRetries
    ensures |RetryChain(count)| == MaxColdStartRetries - count
    ensures forall i | 0 <= i < |RetryChain(count)| :: RetryChain(count)[i] == (count + i + 1) * RetryStepMs
    decreases MaxColdStartRetries - count
  {
    if count < MaxColdStartRetries {
      RetryChainShape(count + 1);
      var rest := RetryChain(count + 1);
      assert RetryChain(count) == [(count + 1) * RetryStepMs] + rest;
      forall i | 0 < i < |RetryChain(count)|
        ensures RetryChain(count)[i] == (count + i + 1) * RetryStepMs
      {
        assert RetryChain(count)[i] == rest[i - 1];
      }
    }
  }

  function Sum(s: seq<nat>): nat {
    if s == [] then 0 else s[0] + Sum(s[1..])
  }

  /** The retries still to come wait 250 (10 - count)(count + 11) ms in all. */
  lemma {:induction false} RetryChainTotal(count: nat)
    requires count <= MaxColdStartRetries
    ensures Sum(RetryChain(count)) == 250 * (MaxColdStartRetries - count) * (count + 11)
    decreases MaxColdStartRetries - count
  {
    if count < MaxColdStartRetries {
      RetryChainTotal(count + 1);
      assert RetryChain(count)[1..] == RetryChain(count + 1);
      calc {
        Sum(RetryChain(count));
        (count + 1) * 500 + 250 * (MaxColdStartRetries - count - 1) * (count + 12);
        { assert (count + 1) * 500 + 250 * (9 - count) * (count + 12) == 250 * (10 - count) * (count + 11); }
        250 * (MaxColdStartRetries - count) * (count + 11);
      }
    }
  }

  /** From a fresh scene, a configuration that never appears costs 10 retries and 27.5 s. */
  lemma ColdStartBudget()
    ensures |RetryChain(0)| == 10 && Sum(RetryChain(0)) == 27500
  {
    RetryChainShape(0);
    RetryChainTotal(0);
  }

  // ---------------------------------------------------------------------
  // Chapter list

  /** A row of the chapter list; `start` is where selecting it seeks to. */
  datatype ChapterRow = ChapterRow(text: string, detail: string, isCurrent: bool, start: real)

  const CurrentMarker := "\U{25B6} "

  /** `"%d:%02d"` of the whole minutes and seconds of `totalSeconds`. */
  function MinSec(totalSeconds: int): (s: string)
    ensures totalSeconds >= 0 ==>
      exists k | 0 < k < |s| - 2 ::
        && s[k] == ':' && AllDigits(s[..k]) && AllDigits(s[k + 1..]) && |s[k + 1..]| == 2
        && ParseNat(s[..k]) * 60 + ParseNat(s[k + 1..]) == totalSeconds
  {
    var m := Quot(totalSeconds, 60);
    var sec := Rem(totalSeconds, 60);
    var s := IntToString(m) + ":" + Pad2(sec);
    if totalSeconds >= 0 then
      var k := |IntToString(m)|;
      assert s[..k] == IntToString(m) && s[k] == ':' && s[k + 1..] == Pad2(sec);
      s
    else
      s
  }

  /** Whether the playhead `t` lies in chapter `c`: start inclusive, end exclusive. */
  predicate IsCurrentChapter(c: Player.Chapter, t: real) {
    c.start <= t && c.end > t
  }

  /** The default name of the chapter at zero-based position `index`. */
  function ChapterName(index: nat, c: Player.Chapter): (name: string)
    ensures c.title.Some? ==> name == c.title.value
    ensures c.title.None? ==> name == "Chapter " + NatToString(index + 1)
  {
    match c.title
    case Some(t) => t
    case None => "Chapter " + NatToString(index + 1)
  }

  function ChapterRowFor(index: nat, c: Player.Chapter, currentTime: real): (r: ChapterRow)
    ensures r.isCurrent <==> c.start <= currentTime < c.end
    ensures r.text == if r.isCurrent then CurrentMarker + ChapterName(index, c) else ChapterName(index, c)
    ensures r.start == c.start
    ensures r.isCurrent ==> r.detail == MinSec(Trunc(currentTime - c.start)) + " / " + MinSec(Trunc(c.end - c.start))
    ensures !r.isCurrent ==> r.detail == MinSec(Trunc(c.end - c.start))
  {
    var length := MinSec(Trunc(c.end - c.start));
    var current := IsCurrentChapter(c, currentTime);
    var title := (if current then CurrentMarker else "") + ChapterName(index, c);
    var detail := if current then MinSec(Trunc(currentTime - c.start)) + " / " + length else length;
    ChapterRow(title, detail, current, c.start)
  }

  /** The rows of the chapter list, one per chapter in order. */
  function ChapterRows(chapters: seq<Player.Chapter>, currentTime: real): (rows: seq<ChapterRow>)
    ensures |rows| == |chapters|
    ensures forall i | 0 <= i < |rows| :: rows[i] == ChapterRowFor(i, chapters[i], currentTime)
  {
    seq(|chapters|, i requires 0 <= i < |chapters| => ChapterRowFor(i, chapters[i], currentTime))
  }

  /** Chapters that do not overlap, in order of start, each of positive length. */
  ghost predicate WellOrdered(cs: seq<Player.Chapter>) {
    && (forall i | 0 <= i < |cs| :: cs[i].start < cs[i].end)
    && (forall i | 0 <= i < |cs| - 1 :: cs[i].end <= cs[i + 1].start)
  }

  lemma {:induction false} EarlierChapterEndsFirst(cs: seq<Player.Chapter>, i: nat, j: nat)
    requires WellOrdered(cs) && i < j < |cs|
    ensures cs[i].end <= cs[j].start
    decreases j - i
  {
    if i + 1 < j {
      EarlierChapterEndsFirst(cs, i + 1, j);
    }
  }

  /** Two different well-ordered chapters are never both current. */
  lemma NotBothCurrent(cs: seq<Player.Chapter>, t: real, i: nat, j: nat)
    requires WellOrdered(cs) && i < j < |cs|
    ensures !(IsCurrentChapter(cs[i], t) && IsCurrentChapter(cs[j], t))
  {
    EarlierChapterEndsFirst(cs, i, j);
  }

  /** A row is marked current exactly when its chapter is. */
  lemma RowIsCurrent(cs: seq<Player.Chapter>, t: real, i: nat)
    requires i < |cs|
    ensures ChapterRows(cs, t)[i].isCurrent <==> IsCurrentChapter(cs[i], t)
  {
    var r := ChapterRowFor(i, cs[i], t);
    assert ChapterRows(cs, t)[i] == r;
  }

  /** For well-ordered chapters at most one row is marked current. */
  lemma AtMostOneCurrentRow(cs: seq<Player.Chapter>, t: real)
    requires WellOrdered(cs)
    ensures forall i, j | 0 <= i < j < |cs| :: !(ChapterRows(cs, t)[i].isCurrent && ChapterRows(cs, t)[j].isCurrent)
  {
    var rows := ChapterRows(cs, t);
    forall i, j | 0 <= i < j < |cs|
      ensures !(rows[i].isCurrent && rows[j].isCurrent)
    {
      NotBothCurrent(cs, t, i, j);
      RowIsCurrent(cs, t, i);
      RowIsCurrent(cs, t, j);
    }
  }

  // ---------------------------------------------------------------------
  // Speed list

  /** The preset rates in tenths: 0.5x, 1x, 1.2x, 1.5x, 1.7x, 2x, 3x. */
  const PresetTenths: seq<nat> := [5, 10, 12, 15, 17, 20, 30]

  /** `"%.0fx"` for whole rates, `"%.1fx"` otherwise, of the rate `tenths / 10`. */
  function RateLabel(tenths: nat): (s: string)
    ensures |s| >= 2 && s[|s| - 1] == 'x'
  {
    if tenths % 10 == 0 then NatToString(tenths / 10) + "x"
    else NatToString(tenths / 10) + "." + [DigitChar(tenths % 10)] + "x"
  }

  /** Reads a speed label back as tenths, if it is one. */
  function LabelTenths(s: string): Option<nat> {
    if |s| < 2 || s[|s| - 1] != 'x' then None
    else
      var body := s[..|s| - 1];
      if |body| >= 3 && body[|body| - 2] == '.' && AllDigits(body[..|body| - 2]) && IsDigit(body[|body| - 1]) then
        Some(ParseNat(body[..|body| - 2]) * 10 + DigitValue(body[|body| - 1]))
      else if AllDigits(body) then
        Some(ParseNat(body) * 10)
      else
        None
  }

  /** Every label names its own rate, so distinct presets get distinct labels. */
  lemma RateLabelRoundTrip(tenths: nat)
    ensures LabelTenths(RateLabel(tenths)) == Some(tenths)
  {
    var whole := NatToString(tenths / 10);
    ParseNatToString(tenths / 10);
    var s := RateLabel(tenths);
    var body := s[..|s| - 1];
    if tenths % 10 == 0 {
      assert body == whole;
      if |body| >= 3 {
        assert IsDigit(body[|body| - 2]);
      }
    } else {
      assert body == whole + "." + [DigitChar(tenths % 10)];
      assert body[..|body| - 2] == whole;
    }
  }

  datatype SpeedRow = SpeedRow(text: string, tenths: nat, checked: bool)

  /** The preset rows for the rate in effect; a preset is checked when it is within 0.01 of it. */
  function PresetRows(currentRate: real): (rows: seq<SpeedRow>)
    ensures |rows| == |PresetTenths|
    ensures forall i | 0 <= i < |rows| ::
      && rows[i].tenths == PresetTenths[i]
      && rows[i].text == RateLabel(PresetTenths[i])
      && (rows[i].checked <==> -0.01 < currentRate - PresetTenths[i] as real / 10.0 < 0.01)
  {
    seq(|PresetTenths|, i requires 0 <= i < |PresetTenths| =>
      var rate := PresetTenths[i] as real / 10.0;
      var diff := currentRate - rate;
      SpeedRow(RateLabel(PresetTenths[i]), PresetTenths[i], (if diff < 0.0 then -diff else diff) < 0.01))
  }

  /** "Slower": one tenth down, never below 0.1. */
  function SlowerRate(rate: real): (r: real)
    ensures r >= 0.1 && r >= rate - 0.1
    ensures r == rate - 0.1 || r == 0.1
  {
    if rate - 0.1 > 0.1 then rate - 0.1 else 0.1
  }

  /** "Faster": one tenth up, never above 4.0. */
  function FasterRate(rate: real): (r: real)
    ensures r <= 4.0 && r <= rate + 0.1
    ensures r == rate + 0.1 || r == 4.0
  {
    if rate + 0.1 < 4.0 then rate + 0.1 else 4.0
  }

  /** Inside the clamps the two fine-tune steps undo each other. */
  lemma FineTuneInverse(rate: real)
    ensures 0.1 <= rate <= 3.9 ==> SlowerRate(FasterRate(rate)) == rate
    ensures 0.2 <= rate <= 4.0 ==> FasterRate(SlowerRate(rate)) == rate
  {
  }

  /** Taps on "Slower" (false) and "Faster" (true), one after another. */
  function FineTuneAll(rate: real, taps: seq<bool>): real
    decreases |taps|
  {
    if taps == [] then rate
    else FineTuneAll(if taps[0] then FasterRate(rate) else SlowerRate(rate), taps[1..])
  }

  /** Fine-tuning from a rate in [0.1, 4.0] never leaves that range. */
  lemma {:induction false} FineTuneStaysInRange(rate: real, taps: seq<bool>)
    requires 0.1 <= rate <= 4.0
    ensures 0.1 <= FineTuneAll(rate, taps) <= 4.0
    decreases |taps|
  {
    if taps != [] {
      FineTuneStaysInRange(if taps[0] then FasterRate(rate) else SlowerRate(rate), taps[1..]);
    }
  }

  /** An entry of the speed list. */
  datatype SpeedChoice = Preset(tenths: nat) | Slower | Faster

  /** The rate a choice applies; the fine-tune entries use the rate captured when the list was built. */
  function ChosenRate(choice: SpeedChoice, capturedRate: real): (r: real)
    ensures choice.Preset? ==> r == choice.tenths as real / 10.0
    ensures choice.Slower? ==> r == SlowerRate(capturedRate)
    ensures choice.Faster? ==> r == FasterRate(capturedRate)
  {
    match choice
    case Preset(t) => t as real / 10.0
    case Slower => SlowerRate(capturedRate)
    case Faster => FasterRate(capturedRate)
  }

  // ---------------------------------------------------------------------
  // The scene

  datatype Template =
    | TabBar
    | NowPlaying
    | SpeedList(capturedRate: real, presets: seq<SpeedRow>)
    | ChapterList(rows: seq<ChapterRow>)

  /** The stack after `pushNowPlaying`: unchanged without an interface or with Now Playing already on top. */
  function WithNowPlaying(connected: bool, stack: seq<Template>): (r: seq<Template>)
    requires connected ==> |stack| >= 1
    ensures !connected ==> r == stack
    ensures connected && stack[|stack| - 1] == NowPlaying ==> r == stack
    ensures connected && stack[|stack| - 1] != NowPlaying ==> r == stack + [NowPlaying]
  {
    if !connected || stack[|stack| - 1] == NowPlaying then stack else stack + [NowPlaying]
  }

  /** However often it is requested, Now Playing is pushed at most once in a row. */
  lemma NowPlayingPushIdempotent(connected: bool, stack: seq<Template>)
    requires connected ==> |stack| >= 1
    ensures connected ==> WithNowPlaying(connected, stack)[|WithNowPlaying(connected, stack)| - 1] == NowPlaying
    ensures WithNowPlaying(connected, WithNowPlaying(connected, stack)) == WithNowPlaying(connected, stack)
  {
  }

  class CarPlayScene {
    /** Whether an interface controller is attached. */
    var connected: bool
    /** The interface controller's templates, root first. */
    var stack: seq<Template>
    var providersAttached: bool
    var observingConfig: bool
    var providerReloads: nat
    var coldStartRetryCount: nat
    /** The delay of every cold-start retry scheduled so far, in order. */
    var retryDelays: seq<nat>
    var pendingRetries: nat
    /** Delayed Now Playing pushes requested on connect and not yet run. */
    var pendingNowPlayingPushes: nat

    ghost predicate Valid()
      reads this
    {
      && coldStartRetryCount <= MaxColdStartRetries
      && |retryDelays| == coldStartRetryCount
      && (forall i | 0 <= i < |retryDelays| :: retryDelays[i] == (i + 1) * RetryStepMs)
      && pendingRetries <= coldStartRetryCount
      && (connected ==> |stack| >= 1 && stack[0] == TabBar)
    }

    constructor ()
      ensures Valid() && !connected && stack == [] && !providersAttached && !observingConfig
      ensures providerReloads == 0 && coldStartRetryCount == 0 && retryDelays == []
      ensures pendingRetries == 0 && pendingNowPlayingPushes == 0
    {
      connected := false;
      stack := [];
      providersAttached := false;
      observingConfig := false;
      providerReloads := 0;
      coldStartRetryCount := 0;
      retryDelays := [];
      pendingRetries := 0;
      pendingNowPlayingPushes := 0;
    }

    /** The scheduled retries are the first ones of the chain a fresh scene would run. */
    lemma RetriesFollowChain()
      requires Valid()
      ensures retryDelays == RetryChain(0)[..coldStartRetryCount]
    {
      RetryChainShape(0);
    }

    /** Schedules one more retry unless the config is there or the budget is spent; returns its delay. */
    method ScheduleColdStartRetryIfNeeded(configPresent: bool) returns (delayMs: Option<nat>)
      requires Valid()
      modifies this`coldStartRetryCount, this`retryDelays, this`pendingRetries
      ensures Valid()
      ensures delayMs.Some? <==> !configPresent && old(coldStartRetryCount) < MaxColdStartRetries
      ensures delayMs.Some? ==>
        && coldStartRetryCount == old(coldStartRetryCount) + 1
        && delayMs.value == coldStartRetryCount * RetryStepMs
        && retryDelays == old(retryDelays) + [delayMs.value]
        && pendingRetries == old(pendingRetries) + 1
      ensures delayMs.None? ==>
        coldStartRetryCount == old(coldStartRetryCount) && retryDelays == old(retryDelays) && pendingRetries == old(pendingRetries)
    {
      if configPresent || coldStartRetryCount >= MaxColdStartRetries {
        return None;
      }
      coldStartRetryCount := coldStartRetryCount + 1;
      var delay := coldStartRetryCount * RetryStepMs;
      retryDelays := retryDelays + [delay];
      pendingRetries := pendingRetries + 1;
      delayMs := Some(delay);
    }

    /** `reloadAllProviders`: the three providers reload if they are attached. */
    method ReloadAllProviders()
      modifies this`providerReloads
      ensures providerReloads == old(providerReloads) + (if providersAttached then 1 else 0)
    {
      if providersAttached {
        providerReloads := providerReloads + 1;
      }
    }

    /** A scheduled retry runs: reload if the config has appeared, otherwise try to schedule again. */
    method ColdStartRetryFired(configPresent: bool) returns (next: Option<nat>)
      requires Valid() && pendingRetries > 0
      modifies this`coldStartRetryCount, this`retryDelays, this`pendingRetries, this`providerReloads
      ensures Valid()
      ensures configPresent ==>
        && next.None? && coldStartRetryCount == old(coldStartRetryCount)
        && pendingRetries == old(pendingRetries) - 1
        && providerReloads == old(providerReloads) + (if providersAttached then 1 else 0)
      ensures !configPresent ==>
        && providerReloads == old(providerReloads)
        && (next.Some? <==> old(coldStartRetryCount) < MaxColdStartRetries)
        && (next.Some? ==>
              && next.value == coldStartRetryCount * RetryStepMs && coldStartRetryCount == old(coldStartRetryCount) + 1
              && retryDelays == old(retryDelays) + [next.value]
              // the retry that fired is replaced by the one it schedules
              && pendingRetries == old(pendingRetries))
        && (next.None? ==> coldStartRetryCount == old(coldStartRetryCount) && pendingRetries == old(pendingRetries) - 1)
    {
      pendingRetries := pendingRetries - 1;
      if configPresent {
        ReloadAllProviders();
        next := None;
      } else {
        next := ScheduleColdStartRetryIfNeeded(false);
      }
    }

    /** Pushes Now Playing unless there is no interface or it is already on top. */
    method PushNowPlaying()
      requires Valid()
      modifies this`stack
      ensures Valid()
      ensures stack == WithNowPlaying(connected, old(stack))
    {
      if !connected {
        return;
      }
      if stack[|stack| - 1] == NowPlaying {
        return;
      }
      stack := stack + [NowPlaying];
    }

    /** Pops the top template, if there is one above the root. */
    method PopTemplate()
      requires Valid()
      modifies this`stack
      ensures Valid()
      ensures connected && |old(stack)| > 1 ==> stack == old(stack)[..|old(stack)| - 1]
      ensures !(connected && |old(stack)| > 1) ==> stack == old(stack)
    {
      if connected && |stack| > 1 {
        stack := stack[..|stack| - 1];
      }
    }

    /** The car connects: root tab bar, providers reloaded, cold-start gate, and Now Playing if audio is playing. */
    method DidConnect(handler: Player.PlayerHandler, configPresent: bool)
      requires Valid()
      modifies this
      ensures Valid()
      ensures connected && stack == [TabBar] && providersAttached && observingConfig
      ensures providerReloads == old(providerReloads) + 1
      ensures !configPresent && old(coldStartRetryCount) < MaxColdStartRetries ==>
        coldStartRetryCount == old(coldStartRetryCount) + 1 && pendingRetries == old(pendingRetries) + 1
      ensures configPresent || old(coldStartRetryCount) >= MaxColdStartRetries ==>
        coldStartRetryCount == old(coldStartRetryCount) && pendingRetries == old(pendingRetries)
      ensures pendingNowPlayingPushes == old(pendingNowPlayingPushes) +
        (if handler.CurrentSession().Some? && !handler.Paused() then 1 else 0)
    {
      connected := true;
      stack := [TabBar];
      providersAttached := true;
      providerReloads := providerReloads + 1;
      var _ := ScheduleColdStartRetryIfNeeded(configPresent);
      observingConfig := true;
      if handler.CurrentSession().Some? && !handler.Paused() {
        pendingNowPlayingPushes := pendingNowPlayingPushes + 1;
      }
    }

    /** The half-second delayed push requested on connect runs. */
    method DeferredNowPlayingPushFired()
      requires Valid() && pendingNowPlayingPushes > 0
      modifies this`stack, this`pendingNowPlayingPushes
      ensures Valid()
      ensures pendingNowPlayingPushes == old(pendingNowPlayingPushes) - 1
      ensures stack == WithNowPlaying(connected, old(stack))
    {
      pendingNowPlayingPushes := pendingNowPlayingPushes - 1;
      PushNowPlaying();
    }

    method DidDisconnect()
      requires Valid()
      modifies this`connected, this`stack, this`providersAttached, this`observingConfig
      ensures Valid()
      ensures !connected && stack == [] && !providersAttached && !observingConfig
    {
      observingConfig := false;
      connected := false;
      stack := [];
      providersAttached := false;
    }

    /** The server-configuration change notification. */
    method ServerConfigDidChange()
      modifies this`providerReloads
      ensures providerReloads == old(providerReloads) + (if observingConfig && providersAttached then 1 else 0)
    {
      if observingConfig {
        ReloadAllProviders();
      }
    }

    /** Shows the chapter list of the current session, if it has chapters. */
    method ShowChapterList(handler: Player.PlayerHandler)
      requires Valid()
      modifies this`stack
      ensures Valid()
      ensures var s := handler.CurrentSession();
        if connected && s.Some? && s.value.chapters != [] then
          stack == old(stack) + [ChapterList(ChapterRows(s.value.chapters, s.value.currentTime))]
        else
          stack == old(stack)
    {
      var session := handler.CurrentSession();
      if session.None? || session.value.chapters == [] {
        return;
      }
      if connected {
        stack := stack + [ChapterList(ChapterRows(session.value.chapters, session.value.currentTime))];
      }
    }

    /** Selecting a chapter row seeks to that chapter's start and closes the list; the seek is a no-op without an initialized player. */
    method SelectChapterRow(handler: Player.PlayerHandler, row: ChapterRow)
      requires Valid()
      modifies handler.player, this`stack
      ensures Valid()
      ensures handler.player == old(handler.player)
      ensures handler.player != null ==> handler.player.OnlyCommandsChanged()
      ensures handler.player != null && handler.player.initialized ==>
        handler.player.commands == old(handler.player.commands) + [Player.SeekTo(row.start)]
      ensures handler.player != null && !handler.player.initialized ==>
        handler.player.commands == old(handler.player.commands)
      ensures connected && |old(stack)| > 1 ==> stack == old(stack)[..|old(stack)| - 1]
      ensures !(connected && |old(stack)| > 1) ==> stack == old(stack)
    {
      handler.Seek(row.start);
      PopTemplate();
    }

    /** Shows the speed list for the rate currently in the settings. */
    method ShowSpeedSelectionList(settings: Player.PlayerSettings)
      requires Valid()
      modifies this`stack
      ensures Valid()
      ensures connected ==> stack == old(stack) + [SpeedList(settings.playbackRate, PresetRows(settings.playbackRate))]
      ensures !connected ==> stack == old(stack)
    {
      if connected {
        var rate := settings.playbackRate;
        stack := stack + [SpeedList(rate, PresetRows(rate))];
      }
    }

    /**
     * Applies a speed-list choice to the settings and the player, then closes the list.
     * `capturedRate` is the rate the list read when it was shown (the `capturedRate` of the
     * `SpeedList` template built by `ShowSpeedSelectionList`): the fine-tune rows step from it,
     * not from whatever the settings hold when the row is tapped.
     */
    method SelectSpeed(settings: Player.PlayerSettings, handler: Player.PlayerHandler, choice: SpeedChoice, capturedRate: real)
      requires Valid()
      modifies settings`playbackRate, handler.player, this`stack
      ensures Valid()
      ensures settings.playbackRate == ChosenRate(choice, capturedRate)
      ensures handler.player == old(handler.player)
      ensures handler.player != null ==> handler.player.OnlyCommandsChanged()
      ensures handler.player != null ==>
        handler.player.commands == old(handler.player.commands) + [Player.SetRate(ChosenRate(choice, capturedRate))]
      ensures connected && |old(stack)| > 1 ==> stack == old(stack)[..|old(stack)| - 1]
      ensures !(connected && |old(stack)| > 1) ==> stack == old(stack)
    {
      var speed := ChosenRate(choice, capturedRate);
      settings.playbackRate := speed;
      handler.SetPlaybackSpeed(speed);
      PopTemplate();
    }
  }
}
