/** The connection gate: whether the guitar cable and the amplifier are plugged in, the mixer
    volume and mute they select, and the change events the setters fire. */
module Connections {

  /** How the manager is set up: whether it found an audio mixer, the names of the two
      exposed mixer parameters, and the volumes (in dB) to use when connected or not. */
  datatype MixerConfig = MixerConfig(hasMixer: bool, volumeParameter: string, muteParameter: string,
                                     connectedVolume: real, disconnectedVolume: real)

  /** What the manager sends out, in order: a mixer parameter write, or one of its events. */
  datatype Effect =
    | SetFloat(parameter: string, value: real)
    | GuitarConnectionChanged(connected: bool)
    | AmplifierConnectionChanged(connected: bool)
    | ConnectionStateChanged

  /** The two flags and what has been sent so far. */
  datatype Conn = Conn(isGuitarConnected: bool, isAmplifierConnected: bool, effects: seq<Effect>)

  predicate IsFullyConnected(c: Conn) {
    c.isGuitarConnected && c.isAmplifierConnected
  }

  function TargetVolume(cfg: MixerConfig, fullyConnected: bool): real {
    if fullyConnected then cfg.connectedVolume else cfg.disconnectedVolume
  }

  function MuteValue(fullyConnected: bool): real {
    if !fullyConnected then 1.0 else 0.0
  }

  /** The connected volume is chosen for a fully connected rig and the disconnected one
      otherwise; the mute parameter is 1 exactly when the rig is not fully connected. */
  lemma AudioSelection(cfg: MixerConfig, fullyConnected: bool)
    ensures fullyConnected ==> TargetVolume(cfg, fullyConnected) == cfg.connectedVolume
    ensures !fullyConnected ==> TargetVolume(cfg, fullyConnected) == cfg.disconnectedVolume
    ensures cfg.connectedVolume != cfg.disconnectedVolume ==>
      (TargetVolume(cfg, fullyConnected) == cfg.connectedVolume <==> fullyConnected)
    ensures MuteValue(fullyConnected) == 1.0 <==> !fullyConnected
    ensures MuteValue(fullyConnected) == 0.0 <==> fullyConnected
  {
  }

  /** UpdateAudioState: without a mixer nothing is written; otherwise the volume and then the
      mute parameter are set for the current flags. */
  function AudioUpdate(cfg: MixerConfig, c: Conn): (r: seq<Effect>)
    ensures cfg.hasMixer ==> |r| == 2
  {
    if !cfg.hasMixer then []
    else [SetFloat(cfg.volumeParameter, TargetVolume(cfg, IsFullyConnected(c))),
          SetFloat(cfg.muteParameter, MuteValue(IsFullyConnected(c)))]
  }

  function SetGuitarSpec(cfg: MixerConfig, c: Conn, connected: bool): Conn {
    if c.isGuitarConnected == connected then c
    else
      var flagged := c.(isGuitarConnected := connected);
      flagged.(effects := c.effects + AudioUpdate(cfg, flagged)
                          + [GuitarConnectionChanged(connected), ConnectionStateChanged])
  }

  function SetAmplifierSpec(cfg: MixerConfig, c: Conn, connected: bool): Conn {
    if c.isAmplifierConnected == connected then c
    else
      var flagged := c.(isAmplifierConnected := connected);
      flagged.(effects := c.effects + AudioUpdate(cfg, flagged)
                          + [AmplifierConnectionChanged(connected), ConnectionStateChanged])
  }

  /** Setting the guitar flag touches only that flag; it sends something exactly when the
      flag changes, and then the mixer update for the new flags and the two events. */
  lemma SetGuitarChangesOnlyGuitar(cfg: MixerConfig, c: Conn, connected: bool)
    ensures var r := SetGuitarSpec(cfg, c, connected);
      r.isGuitarConnected == connected && r.isAmplifierConnected == c.isAmplifierConnected
      && (r.effects == c.effects <==> c.isGuitarConnected == connected)
      && (c.isGuitarConnected != connected ==>
            r.effects == c.effects + AudioUpdate(cfg, r) + [GuitarConnectionChanged(connected), ConnectionStateChanged])
  {
    if c.isGuitarConnected != connected {
      var r := SetGuitarSpec(cfg, c, connected);
      assert |r.effects| > |c.effects|;
    }
  }

  /** The amplifier setter is the mirror image and never touches the guitar flag. */
  lemma SetAmplifierChangesOnlyAmplifier(cfg: MixerConfig, c: Conn, connected: bool)
    ensures var r := SetAmplifierSpec(cfg, c, connected);
      r.isAmplifierConnected == connected && r.isGuitarConnected == c.isGuitarConnected
      && (r.effects == c.effects <==> c.isAmplifierConnected == connected)
      && (c.isAmplifierConnected != connected ==>
            r.effects == c.effects + AudioUpdate(cfg, r) + [AmplifierConnectionChanged(connected), ConnectionStateChanged])
  {
    if c.isAmplifierConnected != connected {
      var r := SetAmplifierSpec(cfg, c, connected);
      assert |r.effects| > |c.effects|;
    }
  }

  /** Calling a setter twice with the same value is calling it once: the second call sends
      nothing. */
  lemma SettersIdempotent(cfg: MixerConfig, c: Conn, connected: bool)
    ensures SetGuitarSpec(cfg, SetGuitarSpec(cfg, c, connected), connected) == SetGuitarSpec(cfg, c, connected)
    ensures SetAmplifierSpec(cfg, SetAmplifierSpec(cfg, c, connected), connected) == SetAmplifierSpec(cfg, c, connected)
  {
  }

  /** Resetting leaves both flags down and setting all leaves both up, from any state, and
      the last mixer write then selects the disconnected or the connected sound. */
  lemma ResetAndSetAll(cfg: MixerConfig, c: Conn)
    ensures var r := SetAmplifierSpec(cfg, SetGuitarSpec(cfg, c, false), false);
      !r.isGuitarConnected && !r.isAmplifierConnected && !IsFullyConnected(r)
    ensures var r := SetAmplifierSpec(cfg, SetGuitarSpec(cfg, c, true), true);
      r.isGuitarConnected && r.isAmplifierConnected && IsFullyConnected(r)
  {
  }

  function Word(connected: bool): string {
    if connected then "Connected" else "Disconnected"
  }

  /** GetConnectionStatus. */
  function Status(guitar: bool, amplifier: bool): string {
    "Guitar: " + Word(guitar) + ", Amplifier: " + Word(amplifier)
  }

  /** The status line tells both flags apart: the letter after "Guitar: " gives the guitar
      flag, and the line ends in "Connected" or "Disconnected" for the amplifier; so equal
      lines mean equal flags. */
  lemma StatusDeterminesFlags(g1: bool, a1: bool, g2: bool, a2: bool)
    ensures Status(g1, a1)[8] == (if g1 then 'C' else 'D')
    ensures Status(g1, a1) == Status(g2, a2) ==> g1 == g2 && a1 == a2
  {
    var s1 := Status(g1, a1);
    var s2 := Status(g2, a2);
    assert s1[8] == Word(g1)[0];
    assert s2[8] == Word(g2)[0];
    if s1 == s2 && g1 == g2 && a1 != a2 {
      assert |s1| != |s2|;
    }
  }

  /** The shape of a status line: "Guitar: ", then the guitar's word, and at the end the
      amplifier's word, whose last twelve letters are "Disconnected" only for a disconnected
      amplifier. */
  lemma StatusShape(g: bool, a: bool)
    ensures var r := Status(g, a);
      |r| > 12 && r[..8] == "Guitar: " && r[8] == (if g then 'C' else 'D')
      && (r[|r| - 12..] == "Disconnected" <==> !a)
  {
    var head := "Guitar: " + Word(g) + ", Amplifier: ";
    var r := Status(g, a);
    assert r == head + Word(a);
    assert r[..8] == head[..8];
    assert r[8] == Word(g)[0];
    if a {
      assert r[|r| - 12] == head[|head| - 3] == 'r';
    } else {
      assert r[|r| - 12..] == Word(a);
    }
  }

  class ConnectionManager {
    const config: MixerConfig
    var isGuitarConnected: bool
    var isAmplifierConnected: bool
    /** Mixer writes and fired events, oldest first. */
    var effects: seq<Effect>

    function State(): Conn
      reads this
    {
      Conn(isGuitarConnected, isAmplifierConnected, effects)
    }

    /** Awake: start disconnected and mute the guitar. */
    constructor (cfg: MixerConfig)
      ensures config == cfg && !isGuitarConnected && !isAmplifierConnected
      ensures effects == AudioUpdate(cfg, Conn(false, false, []))
    {
      config := cfg;
      isGuitarConnected := false;
      isAmplifierConnected := false;
      effects := [];
      new;
      UpdateAudioState();
    }

    method UpdateAudioState()
      modifies this
      ensures isGuitarConnected == old(isGuitarConnected) && isAmplifierConnected == old(isAmplifierConnected)
      ensures effects == old(effects) + AudioUpdate(config, old(State()))
    {
      if !config.hasMixer {
        return;
      }
      var fullyConnected := isGuitarConnected && isAmplifierConnected;
      var targetVolume := if fullyConnected then config.connectedVolume else config.disconnectedVolume;
      effects := effects + [SetFloat(config.volumeParameter, targetVolume)];
      var isMuted := !fullyConnected;
      effects := effects + [SetFloat(config.muteParameter, if isMuted then 1.0 else 0.0)];
    }

    method SetGuitarConnected(connected: bool)
      modifies this
      ensures State() == SetGuitarSpec(config, old(State()), connected)
    {
      if isGuitarConnected != connected {
        isGuitarConnected := connected;
        UpdateAudioState();
        effects := effects + [GuitarConnectionChanged(connected)];
        effects := effects + [ConnectionStateChanged];
      }
    }

    method SetAmplifierConnected(connected: bool)
      modifies this
      ensures State() == SetAmplifierSpec(config, old(State()), connected)
    {
      if isAmplifierConnected != connected {
        isAmplifierConnected := connected;
        UpdateAudioState();
        effects := effects + [AmplifierConnectionChanged(connected)];
        effects := effects + [ConnectionStateChanged];
      }
    }

    /** The status line: it opens with "Guitar: ", its next letter gives the guitar flag,
        and it ends in "Disconnected" exactly when the amplifier is not connected. */
    function GetConnectionStatus(): (r: string)
      reads this
      ensures |r| > 12 && r[..8] == "Guitar: "
      ensures r[8] == (if isGuitarConnected then 'C' else 'D')
      ensures r[|r| - 12..] == "Disconnected" <==> !isAmplifierConnected
    {
      StatusShape(isGuitarConnected, isAmplifierConnected);
      Status(isGuitarConnected, isAmplifierConnected)
    }

    method ResetAllConnections()
      modifies this
      ensures State() == SetAmplifierSpec(config, SetGuitarSpec(config, old(State()), false), false)
      ensures !isGuitarConnected && !isAmplifierConnected
    {
      SetGuitarConnected(false);
      SetAmplifierConnected(false);
    }

    method SetAllConnections()
      modifies this
      ensures State() == SetAmplifierSpec(config, SetGuitarSpec(config, old(State()), true), true)
      ensures isGuitarConnected && isAmplifierConnected
    {
      SetGuitarConnected(true);
      SetAmplifierConnected(true);
    }
  }
}
