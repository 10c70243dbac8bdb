/** The support-ticket chain: basic and advanced support resolve their own
    kind of request and pass anything else on; expert support resolves its
    own kind and gives up on anything else without forwarding. */
module SupportChain {
  import Chain

  datatype Support = BasicSupport | AdvancedSupport | ExpertSupport

  /** The one request each level resolves. */
  function Specialty(k: Support): string {
    match k
    case BasicSupport => "básico"
    case AdvancedSupport => "avanzado"
    case ExpertSupport => "experto"
  }

  /** What each handler reached does with the request. */
  datatype SupportEvent = Resolved(handler: Support) | Forwarded(handler: Support) | GaveUp(handler: Support)

  /** The event a single handler produces for a request. */
  function React(k: Support, request: string): (e: SupportEvent)
    ensures e.handler == k
    ensures e.Resolved? <==> request == Specialty(k)
    ensures e.GaveUp? <==> k == ExpertSupport && request != Specialty(k)
    ensures e.Forwarded? <==> k != ExpertSupport && request != Specialty(k)
  {
    if request == Specialty(k) then Resolved(k)
    else if k == ExpertSupport then GaveUp(k)
    else Forwarded(k)
  }

  /** `handle` on the first handler of `chain`: the events of the handlers
      reached, in order. Every handler but the last forwarded; the last one
      resolved the request iff it is its specialty, gave up iff it is expert
      support facing another request, or forwarded with no successor (the
      base `handle` then does nothing). Expert support never forwards. */
  function Handle(chain: seq<Support>, request: string): (t: seq<SupportEvent>)
    requires |chain| > 0
    ensures 1 <= |t| <= |chain|
    ensures forall i :: 0 <= i < |t| ==> t[i].handler == chain[i]
    ensures forall i :: 0 <= i < |t| - 1 ==> t[i] == Forwarded(chain[i]) && request != Specialty(chain[i])
    ensures t[|t| - 1].Resolved? <==> request == Specialty(chain[|t| - 1])
    ensures t[|t| - 1].GaveUp? ==> chain[|t| - 1] == ExpertSupport
    ensures t[|t| - 1].Forwarded? ==> |t| == |chain|
    ensures forall i :: 0 <= i < |t| - 1 ==> chain[i] != ExpertSupport
    ensures t[|t| - 1].Forwarded? ==> chain[|t| - 1] != ExpertSupport
    ensures forall i :: 0 <= i < |t| ==> t[i] == React(chain[i], request)
    decreases |chain|
  {
    var e := React(chain[0], request);
    if e.Forwarded? && |chain| > 1 then [e] + Handle(chain[1..], request) else [e]
  }

  /** At most one handler resolves a request, in any chain: only the last
      handler reached can have resolved it. */
  lemma AtMostOneResolves(chain: seq<Support>, request: string, i: nat, j: nat)
    requires |chain| > 0
    requires i < |Handle(chain, request)| && j < |Handle(chain, request)|
    requires Handle(chain, request)[i].Resolved? && Handle(chain, request)[j].Resolved?
    ensures i == j == |Handle(chain, request)| - 1
  {
  }

  const DemoChain: seq<Support> := [BasicSupport, AdvancedSupport, ExpertSupport]

  /** Basic support resolves 'básico' itself. */
  lemma DemoBasic()
    ensures Handle(DemoChain, "básico") == [Resolved(BasicSupport)]
  {
  }

  /** 'avanzado' passes basic support and stops at advanced support. */
  lemma DemoAdvanced()
    ensures Handle(DemoChain, "avanzado") == [Forwarded(BasicSupport), Resolved(AdvancedSupport)]
  {
    assert "avanzado" != "básico" by { assert "avanzado"[0] != "básico"[0]; }
    assert DemoChain[1..] == [AdvancedSupport, ExpertSupport];
  }

  /** 'experto' and 'nuclear' both pass basic and advanced support; expert
      support resolves the first and gives up on the second. */
  lemma DemoExpertAndUnknown(request: string)
    requires request == "experto" || request == "nuclear"
    ensures Handle(DemoChain, request) ==
      [Forwarded(BasicSupport), Forwarded(AdvancedSupport),
       if request == "experto" then Resolved(ExpertSupport) else GaveUp(ExpertSupport)]
  {
    assert request != "básico" by { assert request[0] != "básico"[0]; }
    assert request != "avanzado" by { assert request[0] != "avanzado"[0]; }
    assert "nuclear" != "experto" by { assert "nuclear"[0] != "experto"[0]; }
    assert DemoChain[1..] == [AdvancedSupport, ExpertSupport];
    assert DemoChain[1..][1..] == [ExpertSupport];
  }

  /** The demo chain resolves each known request at exactly the handler of
      that specialty and 'nuclear' nowhere: it passes basic and advanced
      support and expert support gives up. */
  lemma DemoScenario()
    ensures Handle(DemoChain, "básico") == [Resolved(BasicSupport)]
    ensures Handle(DemoChain, "avanzado") == [Forwarded(BasicSupport), Resolved(AdvancedSupport)]
    ensures Handle(DemoChain, "experto") ==
      [Forwarded(BasicSupport), Forwarded(AdvancedSupport), Resolved(ExpertSupport)]
    ensures Handle(DemoChain, "nuclear") ==
      [Forwarded(BasicSupport), Forwarded(AdvancedSupport), GaveUp(ExpertSupport)]
  {
    DemoBasic();
    DemoAdvanced();
    DemoExpertAndUnknown("experto");
    DemoExpertAndUnknown("nuclear");
  }

  /** The demo wires the chain with `basicSupport.setNext(advancedSupport).setNext(expertSupport)`. */
  lemma DemoWiring()
    ensures
      var first := Chain.SetNext(map[], 0, 1);
      var second := Chain.SetNext(first.0, first.1, 2);
      var nodes := Chain.Walk(second.0, 0, 2);
      var kinds := map[0 := BasicSupport, 1 := AdvancedSupport, 2 := ExpertSupport];
      seq(|nodes|, i requires 0 <= i < |nodes| => kinds[nodes[i]]) == DemoChain
  {
    Chain.ChainedSetNext(0, 1, 2, 2);
  }
}
