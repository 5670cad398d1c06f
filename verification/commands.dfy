/**
  The command vocabulary of wake-on-demand.

  The server stores whatever string a client sends as the pending command of
  a device; only three values mean something to a device ("pulse", "force",
  "status"), and the empty string means "nothing pending". This module gives
  that implicit vocabulary a closed view (`Command`) without changing what is
  stored, and models the client's mapping of command-line verbs to command
  values.
 */
module Commands {

  const PulseText: string := "pulse"
  const ForceText: string := "force"
  const StatusText: string := "status"

  /** The pending command as a device understands it. `Unrecognized` keeps
      any other string verbatim, since the server accepts anything. */
  datatype Command = NoCommand | Pulse | Force | Status | Unrecognized(raw: string)

  /** A `Command` that `Parse` can produce: an `Unrecognized` value never
      spells one of the known commands or the empty string. */
  predicate WellFormed(c: Command) {
    c.Unrecognized? ==> c.raw !in {"", PulseText, ForceText, StatusText}
  }

  /** The string the server stores for a command. */
  function Text(c: Command): (s: string) {
    match c
    case NoCommand => ""
    case Pulse => PulseText
    case Force => ForceText
    case Status => StatusText
    case Unrecognized(raw) => raw
  }

  /** Classifies a stored command string; every string has exactly one
      classification and nothing is lost by it. */
  function Parse(s: string): (c: Command)
    ensures WellFormed(c)
    ensures Text(c) == s
  {
    if s == "" then NoCommand
    else if s == PulseText then Pulse
    else if s == ForceText then Force
    else if s == StatusText then Status
    else Unrecognized(s)
  }

  /** The other half of the round trip: a well-formed command survives
      being stored as text and read back. */
  lemma ParseText(c: Command)
    requires WellFormed(c)
    ensures Parse(Text(c)) == c
  {
    match c
    case NoCommand =>
    case Pulse =>
    case Force =>
    case Status =>
    case Unrecognized(raw) =>
      assert raw != "" && raw != PulseText && raw != ForceText && raw != StatusText;
  }

  /** The client's translation of a command-line verb into the command value
      it sends. The client's switch has no default branch, so any other verb
      leaves the command empty. */
  function VerbCommand(verb: string): (s: string)
    ensures s in {"", PulseText, ForceText, StatusText}
  {
    if verb == "on" then PulseText
    else if verb == "off" then ForceText
    else if verb == "status" then StatusText
    else ""
  }

  /** What each verb means to the device: "on" is a short power pulse,
      "off" a long forcing pulse, "status" a connectivity check, and any
      other verb sends nothing. */
  lemma VerbMeaning(verb: string)
    ensures Parse(VerbCommand(verb)) == Pulse <==> verb == "on"
    ensures Parse(VerbCommand(verb)) == Force <==> verb == "off"
    ensures Parse(VerbCommand(verb)) == Status <==> verb == "status"
    ensures Parse(VerbCommand(verb)) == NoCommand <==> verb !in {"on", "off", "status"}
  {
  }

  /** Distinct client verbs never send the same command. */
  lemma VerbCommandInjective(v1: string, v2: string)
    requires v1 in {"on", "off", "status"} && v2 in {"on", "off", "status"}
    requires VerbCommand(v1) == VerbCommand(v2)
    ensures v1 == v2
  {
  }
}
