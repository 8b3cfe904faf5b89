/** Admission of inbound frames: cmd/ucentral-client/handler.go, HandleFrame. */
module FrameHandler {
  import opened Common
  import opened CanonicalKeys

  datatype Limits = Limits(absolute: int, configure: int, certupdate: int, script: int, other: int)

  /**
   * A frame after the JSON decoder: Garbage when the full parse fails, with the command and id the
   * lightweight parse still found. `timeout` is what getTransactionTimeout selects.
   */
  datatype Inbound =
    | Garbage(session: string, size: nat, command: string, id: RawId)
    | Request(session: string, size: nat, command: string, id: RawId, valid: bool, paramsOk: bool, timeout: Time)

  /** Drop the frame, answer it on the spot, or ask the request manager for a transaction. */
  datatype Verdict = Ignore | Answer | Admit(respond: bool, stateChanging: bool)

  /** getCommandAction: None for an unknown method, else whether it changes device state. */
  function StateChanging(command: string): Option<bool> {
    if command in {"configure", "reboot", "factory", "leds", "upgrade", "certupdate", "reenroll", "script"}
        then Some(true)
    else if command in {"ping", "trace", "telemetry", "rtty"} then Some(false)
    else None
  }

  function PayloadLimit(limits: Limits, command: string): int {
    if command == "configure" then limits.configure
    else if command == "certupdate" then limits.certupdate
    else if command == "script" then limits.script
    else limits.other
  }

  function AnswerUnlessNotification(id: RawId): Verdict {
    if IsNotification(id) then Ignore else Answer
  }

  /** HandleFrame up to CreateTransaction; `degraded` is the NATS link check. */
  function Decide(limits: Limits, degraded: bool, f: Inbound): (v: Verdict)
    ensures v.Admit? ==> f.Request? && v.respond == !IsNotification(f.id)
    ensures v.Admit? && v.stateChanging ==> v.respond
    ensures f.Request? && f.valid && IsNotification(f.id) ==> !v.Answer?
  {
    if f.size > limits.absolute then Ignore
    else if f.size > PayloadLimit(limits, f.command) then AnswerUnlessNotification(f.id)
    else if f.Garbage? || !f.valid then Answer
    else
      match StateChanging(f.command)
      case None => AnswerUnlessNotification(f.id)
      case Some(changing) =>
        if !f.paramsOk then AnswerUnlessNotification(f.id)
        else if IsNotification(f.id) && (changing || f.command == "rtty") then Ignore
        else if degraded then AnswerUnlessNotification(f.id)
        else Admit(!IsNotification(f.id), changing)
  }
}
