/** The top-level screen: six pieces of state and the four handlers that
    move them, plus what the screen renders from them. */
module SunriseNavigator {

  import opened Wrappers
  import opened Types
  import Actions

  /** How the combined briefing-and-quote request ended. Both server
      actions are awaited together; if either rejects, the whole request
      fails. */
  datatype SimulationReply = Delivered(generation: Actions.Generation) | Failed

  /** What is on screen. */
  datatype Screen =
    | BriefingScreen(briefing: BriefingData, quote: MotivationalQuote, greetingTime: string)
    | SetupScreen(isAlarmSet: bool, formTime: Option<string>, isSimulating: bool)
    | NothingShown

  class Navigator {
    var alarmSettings: Option<AlarmSettings>
    var isAlarmSet: bool
    var isAlarmRinging: bool
    var isSimulating: bool
    var briefingData: Option<BriefingData>
    var quote: Option<MotivationalQuote>

    /** The state every handler keeps: an alarm is set exactly when settings
        are stored, a ringing alarm has its briefing and quote, and no
        simulation is in flight between handlers. */
    predicate Valid()
      reads this
    {
      && (isAlarmSet <==> alarmSettings.Some?)
      && (isAlarmRinging ==> briefingData.Some? && quote.Some?)
      && !isSimulating
    }

    constructor ()
      ensures Valid()
      ensures alarmSettings == None && !isAlarmSet && !isAlarmRinging && !isSimulating
      ensures briefingData == None && quote == None
    {
      alarmSettings := None;
      isAlarmSet := false;
      isAlarmRinging := false;
      isSimulating := false;
      briefingData := None;
      quote := None;
    }

    /** `handleSetAlarm`: store the submitted settings and mark the alarm set. */
    method SetAlarm(settings: AlarmSettings)
      requires Valid()
      modifies this
      ensures Valid()
      ensures alarmSettings == Some(settings) && isAlarmSet
      ensures isAlarmRinging == old(isAlarmRinging) && isSimulating == old(isSimulating)
      ensures briefingData == old(briefingData) && quote == old(quote)
    {
      alarmSettings := Some(settings);
      isAlarmSet := true;
    }

    /** `handleCancelAlarm`: forget the settings and mark the alarm unset. */
    method CancelAlarm()
      requires Valid()
      modifies this
      ensures Valid()
      ensures alarmSettings == None && !isAlarmSet
      ensures isAlarmRinging == old(isAlarmRinging) && isSimulating == old(isSimulating)
      ensures briefingData == old(briefingData) && quote == old(quote)
    {
      alarmSettings := None;
      isAlarmSet := false;
    }

    /** `handleSimulateAlarm`: with settings stored, fetch the briefing for
        their addresses and a quote, and ring on success; the in-flight flag
        is raised for the request and lowered in every outcome. */
    method SimulateAlarm(reply: SimulationReply)
      requires Valid()
      modifies this
      ensures Valid()
      ensures alarmSettings == old(alarmSettings) && isAlarmSet == old(isAlarmSet) && !isSimulating
      ensures old(alarmSettings).None? ==>
        isAlarmRinging == old(isAlarmRinging) && briefingData == old(briefingData) && quote == old(quote)
      ensures old(alarmSettings).Some? && reply.Delivered? ==>
        && isAlarmRinging
        && briefingData == Some(Actions.GetBriefingData(old(alarmSettings).value.home, old(alarmSettings).value.destination))
        && quote == Some(Actions.GetMotivationalQuote(reply.generation))
      ensures reply.Failed? ==>
        isAlarmRinging == old(isAlarmRinging) && briefingData == old(briefingData) && quote == old(quote)
    {
      if alarmSettings.None? {
        return;
      }
      isSimulating := true;
      match reply {
        case Delivered(generation) =>
          var briefing := Actions.GetBriefingData(alarmSettings.value.home, alarmSettings.value.destination);
          var motd := Actions.GetMotivationalQuote(generation);
          briefingData := Some(briefing);
          quote := Some(motd);
          isAlarmRinging := true;
        case Failed =>
      }
      isSimulating := false;
    }

    /** `handleReset`: back to the empty setup screen; the in-flight flag is
        not touched. */
    method Reset()
      requires Valid()
      modifies this
      ensures Valid()
      ensures !isAlarmRinging && !isAlarmSet && briefingData == None && quote == None && alarmSettings == None
      ensures isSimulating == old(isSimulating)
    {
      isAlarmRinging := false;
      isAlarmSet := false;
      briefingData := None;
      quote := None;
      alarmSettings := None;
    }

    /** The render guards: the briefing needs ringing, a briefing and a
        quote; the setup form shows whenever the alarm is not ringing. The
        briefing gets the stored time or "", the form the stored time or null. */
    function CurrentScreen(): (s: Screen)
      reads this
      ensures s.SetupScreen? <==> !isAlarmRinging
      ensures s.BriefingScreen? ==> isAlarmRinging && briefingData.Some? && quote.Some? && s.briefing == briefingData.value && s.quote == quote.value
      ensures Valid() ==> (s.BriefingScreen? <==> isAlarmRinging)
      ensures s.SetupScreen? ==> (s.formTime.Some? <==> alarmSettings.Some?)
      ensures s.SetupScreen? && alarmSettings.Some? ==> s.formTime == Some(alarmSettings.value.time)
      ensures s.SetupScreen? ==> s.isAlarmSet == isAlarmSet && s.isSimulating == isSimulating
      ensures s.BriefingScreen? ==> s.greetingTime == (if alarmSettings.Some? then alarmSettings.value.time else "")
    {
      if isAlarmRinging then
        if briefingData.Some? && quote.Some? then
          BriefingScreen(briefingData.value, quote.value, if alarmSettings.Some? then alarmSettings.value.time else "")
        else
          NothingShown
      else
        SetupScreen(isAlarmSet, if alarmSettings.Some? then Some(alarmSettings.value.time) else None, isSimulating)
    }
  }

  /** A successful simulation after setting an alarm puts the briefing on
      screen, greeting with the wake time that was set. */
  method SetThenRing(settings: AlarmSettings, generation: Actions.Generation) returns (s: Screen)
    ensures s.BriefingScreen?
    ensures s.greetingTime == settings.time
    ensures s.quote == Actions.GetMotivationalQuote(generation)
    ensures s.briefing.weather.location != "" && s.briefing.traffic.destination != ""
  {
    var nav := new Navigator();
    nav.SetAlarm(settings);
    nav.SimulateAlarm(Delivered(generation));
    s := nav.CurrentScreen();
  }

  /** Simulating before any alarm is set changes nothing on screen. */
  method SimulateWithoutAlarm(reply: SimulationReply) returns (before: Screen, after: Screen)
    ensures before == after
    ensures after == SetupScreen(false, None, false)
  {
    var nav := new Navigator();
    before := nav.CurrentScreen();
    nav.SimulateAlarm(reply);
    after := nav.CurrentScreen();
  }

  /** Reset after ringing returns to the empty setup form. */
  method RingThenReset(settings: AlarmSettings, generation: Actions.Generation) returns (s: Screen)
    ensures s == SetupScreen(false, None, false)
  {
    var nav := new Navigator();
    nav.SetAlarm(settings);
    nav.SimulateAlarm(Delivered(generation));
    nav.Reset();
    s := nav.CurrentScreen();
  }
}
