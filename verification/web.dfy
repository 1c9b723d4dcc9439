/** The one request of the web interface whose rule belongs to the core: the
    brew-temperature setting, accepted only inside 80–120 °C. */
module Web {
  import opened Power

  datatype Reply = Echo(settemp: int) | BadRequest(code: int)

  predicate AcceptedBrewTemp(v: int)
  {
    80 <= v <= 120
  }

  datatype Outcome = Outcome(state: Snapshot, reply: Reply)

  /** `POST /brewtemp` with an integer `settemp`. */
  function SetBrewTemp(s: Snapshot, settemp: int): (o: Outcome)
    ensures o.reply.Echo? <==> AcceptedBrewTemp(settemp)
    ensures o.reply.Echo? ==> o.reply.settemp == settemp && o.state == s.(brewtemp := settemp)
    ensures o.reply.BadRequest? ==> o.reply.code == 400 && o.state == s
    ensures AcceptedBrewTemp(s.brewtemp) ==> AcceptedBrewTemp(o.state.brewtemp)
  {
    if 80 <= settemp <= 120 then Outcome(s.(brewtemp := settemp), Echo(settemp))
    else Outcome(s, BadRequest(400))
  }
}
