/** First-fit choice of a stop-capable channel, its break method, and the disproofs that prune methods. */
module Selections {
  import opened Common

  datatype LineRole = SharedConsole | DedicatedDebug | Rsp

  datatype ConsoleKind = Uart | Hvc | Virtio

  datatype BreakMethod = GdbstubNative | UartBreak | AgentProxyBreak | SysrqG {
    /** Issued over ssh to the running kernel, so disproved for the whole target at once. */
    predicate TargetWide() {
      SysrqG?
    }
  }

  datatype TransportRef = TransportRef(provider: string, channelId: string, lineRole: LineRole, caps: set<string>)

  datatype Platform = Platform(consoleKind: ConsoleKind, sshReachable: bool)

  const SUPPORTS_UART_BREAK := "supports_uart_break"
  const PROVIDES_RSP := "provides_rsp"

  // ----- the break policy

  /** The method's topology predicate for a channel. */
  predicate Possible(m: BreakMethod, channel: TransportRef, platform: Platform) {
    match m
    case GdbstubNative => channel.lineRole.Rsp? && PROVIDES_RSP in channel.caps
    case UartBreak => channel.lineRole.DedicatedDebug? && SUPPORTS_UART_BREAK in channel.caps
    case AgentProxyBreak => channel.lineRole.SharedConsole? && SUPPORTS_UART_BREAK in channel.caps
    case SysrqG => platform.sshReachable
  }

  /** Preference: the line's own method before ssh, except that a console that is not a UART comes after it. */
  function Rank(m: BreakMethod, platform: Platform): nat {
    match m
    case GdbstubNative => 0
    case UartBreak => 1
    case AgentProxyBreak => if platform.consoleKind.Uart? then 2 else 4
    case SysrqG => 3
  }

  method Candidates(channel: TransportRef, platform: Platform) returns (cs: seq<BreakMethod>)
    ensures forall m :: m in cs <==> Possible(m, channel, platform)
    ensures forall i, j :: 0 <= i < j < |cs| ==> Rank(cs[i], platform) < Rank(cs[j], platform)
  {
    var sharedConsoleUartBreak := channel.lineRole.SharedConsole? && SUPPORTS_UART_BREAK in channel.caps;
    var preferAgentProxy := sharedConsoleUartBreak && platform.consoleKind.Uart?;
    cs := [];
    if channel.lineRole.Rsp? && PROVIDES_RSP in channel.caps {
      cs := cs + [GdbstubNative];
    }
    if channel.lineRole.DedicatedDebug? && SUPPORTS_UART_BREAK in channel.caps {
      cs := cs + [UartBreak];
    }
    if preferAgentProxy {
      cs := cs + [AgentProxyBreak];
    }
    if platform.sshReachable {
      cs := cs + [SysrqG];
    }
    if sharedConsoleUartBreak && !preferAgentProxy {
      cs := cs + [AgentProxyBreak];
    }
  }

  /** A line's own break method, where the line has the capability it takes. */
  function OwnMethod(channel: TransportRef): seq<BreakMethod> {
    match channel.lineRole
    case Rsp => if "provides_rsp" in channel.caps then [GdbstubNative] else []
    case DedicatedDebug => if "supports_uart_break" in channel.caps then [UartBreak] else []
    case SharedConsole => if "supports_uart_break" in channel.caps then [AgentProxyBreak] else []
  }

  /**
    There is one list of candidates: the line's own method and then SysRq if ssh is reachable, or the other way
    round on a shared console that is not a UART.
   */
  lemma CandidateList(channel: TransportRef, platform: Platform, cs: seq<BreakMethod>)
    requires forall m :: m in cs <==> Possible(m, channel, platform)
    requires forall i, j :: 0 <= i < j < |cs| ==> Rank(cs[i], platform) < Rank(cs[j], platform)
    ensures var ssh := if platform.sshReachable then [SysrqG] else [];
            cs == if channel.lineRole == SharedConsole && platform.consoleKind != Uart then ssh + OwnMethod(channel)
                  else OwnMethod(channel) + ssh
  {
    var ssh := if platform.sshReachable then [SysrqG] else [];
    var own := OwnMethod(channel);
    var list := if channel.lineRole == SharedConsole && platform.consoleKind != Uart then ssh + own else own + ssh;
    assert forall m :: m in list <==> m in own || m in ssh;
    assert forall m :: m in list <==> Possible(m, channel, platform);
    assert forall i, j :: 0 <= i < j < |list| ==> Rank(list[i], platform) < Rank(list[j], platform);
    SortedOnce(list, cs, platform);
  }

  /** Two lists of the same methods in order of preference are the same list. */
  lemma {:induction false} SortedOnce(a: seq<BreakMethod>, b: seq<BreakMethod>, platform: Platform)
    requires forall m :: m in a <==> m in b
    requires forall i, j :: 0 <= i < j < |a| ==> Rank(a[i], platform) < Rank(a[j], platform)
    requires forall i, j :: 0 <= i < j < |b| ==> Rank(b[i], platform) < Rank(b[j], platform)
    ensures a == b
    decreases |a|
  {
    assert forall i | 0 <= i < |b| :: b[i] in b;
    if a != [] {
      assert a[0] in a && a[0] == b[0];
      assert forall m :: m in a <==> m == a[0] || m in a[1..];
      assert forall m :: m in b <==> m == b[0] || m in b[1..];
      SortedOnce(a[1..], b[1..], platform);
    }
  }

  datatype SelectionError = NoCapableChannel | NoBreakPlan | BreakDisproved

  /** m can be executed on the channel and is not among the disproved methods. */
  predicate Executable(m: BreakMethod, channel: TransportRef, platform: Platform, disproved: set<BreakMethod>) {
    Possible(m, channel, platform) && m !in disproved
  }

  ghost predicate Preferred(m: BreakMethod, channel: TransportRef, platform: Platform, disproved: set<BreakMethod>) {
    && Executable(m, channel, platform, disproved)
    && forall other | Executable(other, channel, platform, disproved) :: Rank(m, platform) <= Rank(other, platform)
  }

  method Plan(channel: TransportRef, platform: Platform, disproved: set<BreakMethod>) returns (r: Result<BreakMethod, SelectionError>)
    ensures r.Ok? ==> Preferred(r.value, channel, platform, disproved)
    ensures r.Err? ==> !r.error.NoCapableChannel? && forall m :: !Executable(m, channel, platform, disproved)
    ensures r == Err(NoBreakPlan) <==> forall m :: !Possible(m, channel, platform)
  {
    var candidates := Candidates(channel, platform);
    if candidates == [] {
      return Err(NoBreakPlan);
    }
    assert candidates[0] in candidates;
    for i := 0 to |candidates|
      invariant forall j | 0 <= j < i :: candidates[j] in disproved
    {
      if candidates[i] !in disproved {
        assert candidates[i] in candidates;
        return Ok(candidates[i]);
      }
    }
    return Err(BreakDisproved);
  }

  // ----- disproofs

  datatype BreakDisproof = BreakDisproof(
    targetKey: TargetKey,
    breakMethod: BreakMethod,
    provider: Option<string>,
    channelId: Option<string>)
  {
    /** What its constructor accepts: a target-wide method names no channel, a line-bound one names both parts. */
    predicate Scoped() {
      if breakMethod.TargetWide() then provider.None? && channelId.None? else provider.Some? && channelId.Some?
    }

    predicate AppliesTo(k: TargetKey, channel: TransportRef) {
      targetKey == k
      && (breakMethod.TargetWide() || (provider == Some(channel.provider) && channelId == Some(channel.channelId)))
    }
  }

  function DisprovedOn(disproofs: set<BreakDisproof>, k: TargetKey, channel: TransportRef): set<BreakMethod> {
    set d | d in disproofs && d.AppliesTo(k, channel) :: d.breakMethod
  }

  // ----- selection

  datatype Selection = Selection(index: nat, breakMethod: BreakMethod)

  ghost predicate Breakable(channel: TransportRef, k: TargetKey, platform: Platform, disproofs: set<BreakDisproof>) {
    exists m :: Executable(m, channel, platform, DisprovedOn(disproofs, k, channel))
  }

  /** The first capable channel with an executable method, and the method it prefers. */
  ghost predicate Selects(transports: seq<TransportRef>, required: set<string>, k: TargetKey, platform: Platform,
                          disproofs: set<BreakDisproof>, s: Selection)
  {
    && s.index < |transports| && required <= transports[s.index].caps
    && Preferred(s.breakMethod, transports[s.index], platform, DisprovedOn(disproofs, k, transports[s.index]))
    && forall j | 0 <= j < s.index && required <= transports[j].caps :: !Breakable(transports[j], k, platform, disproofs)
  }

  /** The exact case of each refusal. */
  ghost predicate Refuses(transports: seq<TransportRef>, required: set<string>, k: TargetKey, platform: Platform,
                          disproofs: set<BreakDisproof>, e: SelectionError)
  {
    && (forall c | c in transports && required <= c.caps :: !Breakable(c, k, platform, disproofs))
    && match e
       case NoCapableChannel => forall c | c in transports :: !(required <= c.caps)
       case NoBreakPlan => (exists c :: c in transports && required <= c.caps)
                              && forall c, m | c in transports && required <= c.caps :: !Possible(m, c, platform)
       case BreakDisproved => exists c, m :: c in transports && required <= c.caps && Possible(m, c, platform)
  }

  method SelectStopCapableChannel(k: TargetKey, transports: seq<TransportRef>, required: set<string>, platform: Platform,
                                  disproofs: set<BreakDisproof>)
    returns (r: Result<Selection, SelectionError>)
    ensures match r
            case Ok(s) => Selects(transports, required, k, platform, disproofs, s)
            case Err(e) => Refuses(transports, required, k, platform, disproofs, e)
  {
    var sawCapable, sawDisproved := false, false;
    for i := 0 to |transports|
      invariant forall j | 0 <= j < i && required <= transports[j].caps :: !Breakable(transports[j], k, platform, disproofs)
      invariant sawCapable <==> exists j :: 0 <= j < i && required <= transports[j].caps
      invariant sawDisproved <==> exists j, m :: 0 <= j < i && required <= transports[j].caps && Possible(m, transports[j], platform)
    {
      var channel := transports[i];
      if required <= channel.caps {
        sawCapable := true;
        var plan := Plan(channel, platform, DisprovedOn(disproofs, k, channel));
        if plan.Ok? {
          return Ok(Selection(i, plan.value));
        }
        if plan.error.BreakDisproved? {
          sawDisproved := true;
        }
      }
    }
    return Err(if !sawCapable then NoCapableChannel else if sawDisproved then BreakDisproved else NoBreakPlan);
  }

  /** Disproving more never moves the selection to an earlier channel, nor to a better method on the same one. */
  lemma MoreDisproofsSelectLater(transports: seq<TransportRef>, required: set<string>, k: TargetKey, platform: Platform,
                                 some: set<BreakDisproof>, more: set<BreakDisproof>, s: Selection, t: Selection)
    requires some <= more
    requires Selects(transports, required, k, platform, some, s) && Selects(transports, required, k, platform, more, t)
    ensures s.index <= t.index
    ensures s.index == t.index ==> Rank(s.breakMethod, platform) <= Rank(t.breakMethod, platform)
  {
    var channel := transports[t.index];
    assert DisprovedOn(some, k, channel) <= DisprovedOn(more, k, channel);
    assert Executable(t.breakMethod, channel, platform, DisprovedOn(some, k, channel));
  }

  /** A selection is determined by what is selected from. */
  lemma SelectionIsUnique(transports: seq<TransportRef>, required: set<string>, k: TargetKey, platform: Platform,
                          disproofs: set<BreakDisproof>, s: Selection, t: Selection)
    requires Selects(transports, required, k, platform, disproofs, s) && Selects(transports, required, k, platform, disproofs, t)
    ensures s == t
  {
    MoreDisproofsSelectLater(transports, required, k, platform, disproofs, disproofs, s, t);
    MoreDisproofsSelectLater(transports, required, k, platform, disproofs, disproofs, t, s);
  }

  /** A disproof of SysRq on the target rules it out on every channel; a line-bound one only on the channel it names. */
  lemma DisproofScope(transports: seq<TransportRef>, required: set<string>, k: TargetKey, platform: Platform,
                      disproofs: set<BreakDisproof>, d: BreakDisproof, s: Selection)
    requires d in disproofs && d.Scoped() && d.targetKey == k
    requires Selects(transports, required, k, platform, disproofs, s)
    ensures d.breakMethod.SysrqG? ==> !s.breakMethod.SysrqG?
    ensures var c := transports[s.index];
            d.provider == Some(c.provider) && d.channelId == Some(c.channelId) ==> s.breakMethod != d.breakMethod
    ensures forall c: TransportRef | !d.breakMethod.SysrqG? && (d.provider.value != c.provider || d.channelId.value != c.channelId) ::
              DisprovedOn(disproofs, k, c) == DisprovedOn(disproofs - {d}, k, c)
  {
    if d.AppliesTo(k, transports[s.index]) {
      assert d.breakMethod in DisprovedOn(disproofs, k, transports[s.index]);
    }
  }

  /** A disproof recorded for one target changes nothing for another. */
  lemma DisproofsStayOnTheirTarget(disproofs: set<BreakDisproof>, d: BreakDisproof, k: TargetKey, channel: TransportRef)
    requires d.targetKey != k
    ensures DisprovedOn(disproofs + {d}, k, channel) == DisprovedOn(disproofs, k, channel)
  {
  }
}
