/** The policy engine of src/numi/gateway/domain/policy_engine.py: a decision table that fails to its
    default, and two escalations that can only ask for more. */
module Policy {
  import opened Basics

  datatype PolicyDecision = ALLOW | DENY | REQUIRES_APPROVAL

  /** Microseconds of one day; instants of a window are microseconds after local midnight. */
  const DAY := 86_400_000_000

  datatype Window = Window(start: int, end: int)

  predicate TimeOfDay(t: int) {
    0 <= t < DAY
  }

  predicate WithinWindow(window: Option<Window>, localNow: int) {
    match window
    case None => true
    case Some(w) =>
      if w.start <= w.end then w.start <= localNow <= w.end
      else localNow >= w.start || localNow <= w.end
  }

  /** A configured window, wrapping midnight or not, is the arc of the clock face from start to end; without one there
      is no restriction. */
  lemma WindowIsArc(w: Window, localNow: int)
    requires TimeOfDay(w.start) && TimeOfDay(w.end) && TimeOfDay(localNow)
    ensures WithinWindow(None, localNow)
    ensures WithinWindow(Some(w), localNow) <==> (localNow - w.start) % DAY <= (w.end - w.start) % DAY
  {
    ModOfDifference(localNow, w.start);
    ModOfDifference(w.end, w.start);
  }

  lemma ModOfDifference(a: int, b: int)
    requires TimeOfDay(a) && TimeOfDay(b)
    ensures (a - b) % DAY == if a >= b then a - b else a - b + DAY
  {
  }

  datatype Tool = Tool(
    toolId: string, version: string, availabilityImpact: bool, dataModification: bool, requiresDualApproval: bool)

  datatype Config = Config(
    defaultDecision: PolicyDecision,
    table: map<string, map<string, map<string, PolicyDecision>>>,
    changeTicketRequired: map<string, set<string>>,
    dualApprovalRequired: set<string>)

  datatype Reason =
    | NoPolicyEntry | NoRoleEntry | InsideWindow | OutsideWindow
    | EscalatedOutsideWindow | EscalatedLoadCritical | ChangeTicketMissing

  datatype Evaluation = Evaluation(
    decision: PolicyDecision, requiresDualApproval: bool, requiresChangeTicket: bool, inWindow: bool,
    reasons: seq<Reason>)

  /** The table entry for (environment, tool, role), when there is one. */
  function Entry(cfg: Config, environment: string, toolId: string, role: string): Option<PolicyDecision> {
    if environment in cfg.table && toolId in cfg.table[environment] && role in cfg.table[environment][toolId]
    then Some(cfg.table[environment][toolId][role]) else None
  }

  /** The table speaks for exactly the (environment, tool, role) triples it lists. */
  lemma EntryIff(cfg: Config, environment: string, toolId: string, role: string, d: PolicyDecision)
    ensures Entry(cfg, environment, toolId, role) == Some(d) <==>
            && environment in cfg.table && toolId in cfg.table[environment] && role in cfg.table[environment][toolId]
            && cfg.table[environment][toolId][role] == d
  {
  }

  function Base(cfg: Config, environment: string, toolId: string, role: string): PolicyDecision {
    match Entry(cfg, environment, toolId, role)
    case Some(d) => d
    case None => cfg.defaultDecision
  }

  /** What `evaluate` decides. Nothing escapes DENY; ALLOW is left exactly when the table, or the default where the
      table is silent, says ALLOW, the window does not hold the tool back and the load does not either. */
  function Judge(cfg: Config, environment: string, tool: Tool, role: string, window: Option<Window>,
                 loadCritical: bool, localNow: int): (d: PolicyDecision)
    ensures var entry := Entry(cfg, environment, tool.toolId, role);
            && (d == DENY <==> entry == Some(DENY) || (entry.None? && cfg.defaultDecision == DENY))
            && (d == ALLOW <==>
                  && (entry == Some(ALLOW) || (entry.None? && cfg.defaultDecision == ALLOW))
                  && (tool.availabilityImpact ==> WithinWindow(window, localNow))
                  && !(loadCritical && tool.dataModification))
  {
    var base := Base(cfg, environment, tool.toolId, role);
    if base == ALLOW
       && ((tool.availabilityImpact && !WithinWindow(window, localNow)) || (loadCritical && tool.dataModification))
    then REQUIRES_APPROVAL else base
  }

  predicate NeedsChangeTicket(cfg: Config, environment: string, toolId: string) {
    environment in cfg.changeTicketRequired && toolId in cfg.changeTicketRequired[environment]
  }

  predicate NeedsTwoApprovers(cfg: Config, tool: Tool) {
    tool.requiresDualApproval || tool.toolId in cfg.dualApprovalRequired
  }

  method TableDecision(cfg: Config, environment: string, toolId: string, role: string)
    returns (decision: PolicyDecision, reasons: seq<Reason>)
    ensures decision == Base(cfg, environment, toolId, role)
    ensures NoPolicyEntry in reasons <==> environment !in cfg.table || toolId !in cfg.table[environment]
    ensures NoRoleEntry in reasons <==>
            environment in cfg.table && toolId in cfg.table[environment] && role !in cfg.table[environment][toolId]
    ensures forall r :: r in reasons ==> r in {NoPolicyEntry, NoRoleEntry}
  {
    if environment !in cfg.table || toolId !in cfg.table[environment] {
      return cfg.defaultDecision, [NoPolicyEntry];
    }
    var roles := cfg.table[environment][toolId];
    if role !in roles {
      return cfg.defaultDecision, [NoRoleEntry];
    }
    return roles[role], [];
  }

  method Escalate(tool: Tool, base: PolicyDecision, inWindow: bool, loadCritical: bool)
    returns (decision: PolicyDecision, reasons: seq<Reason>)
    ensures var outside, critical := tool.availabilityImpact && !inWindow, loadCritical && tool.dataModification;
            && decision == (if base == ALLOW && (outside || critical) then REQUIRES_APPROVAL else base)
            && (EscalatedOutsideWindow in reasons <==> base == ALLOW && outside)
            && (EscalatedLoadCritical in reasons <==> base == ALLOW && critical && !outside)
    ensures InsideWindow in reasons <==> tool.availabilityImpact && inWindow
    ensures OutsideWindow in reasons <==> tool.availabilityImpact && !inWindow
    ensures forall r :: r in reasons ==>
            r in {InsideWindow, OutsideWindow, EscalatedOutsideWindow, EscalatedLoadCritical}
  {
    decision, reasons := base, [];
    if tool.availabilityImpact {
      reasons := reasons + [if inWindow then InsideWindow else OutsideWindow];
      if decision == ALLOW && !inWindow {
        decision := REQUIRES_APPROVAL;
        reasons := reasons + [EscalatedOutsideWindow];
      }
    }
    if loadCritical && tool.dataModification && decision == ALLOW {
      decision := REQUIRES_APPROVAL;
      reasons := reasons + [EscalatedLoadCritical];
    }
  }

  method Evaluate(cfg: Config, environment: string, tool: Tool, role: string, window: Option<Window>,
                  changeId: string, loadCritical: bool, localNow: int)
    returns (e: Evaluation)
    ensures e.decision == Judge(cfg, environment, tool, role, window, loadCritical, localNow)
    ensures e.requiresDualApproval <==> tool.requiresDualApproval || tool.toolId in cfg.dualApprovalRequired
    ensures e.requiresChangeTicket <==>
            environment in cfg.changeTicketRequired && tool.toolId in cfg.changeTicketRequired[environment]
    ensures e.inWindow == WithinWindow(window, localNow)
    ensures InsideWindow in e.reasons <==> tool.availabilityImpact && WithinWindow(window, localNow)
    ensures OutsideWindow in e.reasons <==> tool.availabilityImpact && !WithinWindow(window, localNow)
    ensures EscalatedOutsideWindow in e.reasons <==>
            Base(cfg, environment, tool.toolId, role) == ALLOW && tool.availabilityImpact
                && !WithinWindow(window, localNow)
    ensures EscalatedLoadCritical in e.reasons <==>
            && Base(cfg, environment, tool.toolId, role) == ALLOW && loadCritical && tool.dataModification
            && !(tool.availabilityImpact && !WithinWindow(window, localNow))
    ensures NoPolicyEntry in e.reasons <==> environment !in cfg.table || tool.toolId !in cfg.table[environment]
    ensures NoRoleEntry in e.reasons <==>
            environment in cfg.table && tool.toolId in cfg.table[environment]
            && role !in cfg.table[environment][tool.toolId]
    ensures ChangeTicketMissing in e.reasons <==>
            e.requiresChangeTicket && changeId == "" && e.decision != DENY
  {
    hide WithinWindow, Base, Entry;
    var decision, reasons := TableDecision(cfg, environment, tool.toolId, role);
    var inWindow := WithinWindow(window, localNow);
    var escalated, why := Escalate(tool, decision, inWindow, loadCritical);
    decision, reasons := escalated, reasons + why;
    var requiresChangeTicket := NeedsChangeTicket(cfg, environment, tool.toolId);
    if requiresChangeTicket && changeId == "" && decision != DENY {
      reasons := reasons + [ChangeTicketMissing];
    }
    e := Evaluation(decision, NeedsTwoApprovers(cfg, tool), requiresChangeTicket, inWindow, reasons);
  }
}
