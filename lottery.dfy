/** The server's lottery monitor (server/common/lottery_monitor.py): the
    readiness and agency maps kept per client port, the once-only lottery
    run, and the winners grouped by agency. Each method runs under the
    monitor's lock, so each is one atomic step here. Loading the stored bets
    and deciding whether one has won are not part of this model: the bets
    and `hasWon` are parameters. */
module Lottery {
  import opened Wrappers

  /** A stored bet, with the agency and document already read as numbers. */
  datatype LoadedBet = LoadedBet(agency: int, document: int, number: int)

  /** The (agency, dni) pairs of the winning bets, in load order. */
  function WinnersOf(bets: seq<LoadedBet>, hasWon: LoadedBet -> bool): (r: seq<(int, int)>)
    ensures |r| <= |bets|
  {
    if bets == [] then []
    else
      var rest := WinnersOf(bets[..|bets| - 1], hasWon);
      var b := bets[|bets| - 1];
      if hasWon(b) then rest + [(b.agency, b.document)] else rest
  }

  /** The dnis of the winners from `agency`, in order. */
  function DnisOf(winners: seq<(int, int)>, agency: int): (r: seq<int>)
    ensures |r| <= |winners|
  {
    if winners == [] then []
    else
      var rest := DnisOf(winners[..|winners| - 1], agency);
      var w := winners[|winners| - 1];
      if w.0 == agency then rest + [w.1] else rest
  }

  /** An independent reading of "the winners of an agency": straight from the
      bets, the documents of the winning bets placed at that agency. */
  function AgencyWinners(bets: seq<LoadedBet>, hasWon: LoadedBet -> bool, agency: int): (r: seq<int>)
    ensures |r| <= |bets|
  {
    if bets == [] then []
    else
      var rest := AgencyWinners(bets[..|bets| - 1], hasWon, agency);
      var b := bets[|bets| - 1];
      if hasWon(b) && b.agency == agency then rest + [b.document] else rest
  }

  lemma {:induction false} WinnersOfGroupsByAgency(bets: seq<LoadedBet>, hasWon: LoadedBet -> bool, agency: int)
    ensures DnisOf(WinnersOf(bets, hasWon), agency) == AgencyWinners(bets, hasWon, agency)
  {
    if bets != [] {
      var init := bets[..|bets| - 1];
      WinnersOfGroupsByAgency(init, hasWon, agency);
      var b := bets[|bets| - 1];
      if hasWon(b) {
        DnisOfAppend(WinnersOf(init, hasWon), b.agency, b.document, agency);
      }
    }
  }

  lemma DnisOfAppend(winners: seq<(int, int)>, a: int, dni: int, agency: int)
    ensures DnisOf(winners + [(a, dni)], agency) == DnisOf(winners, agency) + (if a == agency then [dni] else [])
  {
    assert (winners + [(a, dni)])[..|winners|] == winners;
  }

  lemma {:induction false} DnisOfConcat(w1: seq<(int, int)>, w2: seq<(int, int)>, agency: int)
    ensures DnisOf(w1 + w2, agency) == DnisOf(w1, agency) + DnisOf(w2, agency)
    decreases |w2|
  {
    if w2 != [] {
      var init, last := w2[..|w2| - 1], w2[|w2| - 1];
      assert w1 + w2 == (w1 + init) + [last];
      DnisOfAppend(w1 + init, last.0, last.1, agency);
      DnisOfConcat(w1, init, agency);
      DnisOfAppend(init, last.0, last.1, agency);
      assert init + [last] == w2;
    } else {
      assert w1 + w2 == w1;
    }
  }

  lemma {:induction false} WinnersOfAppend(bets: seq<LoadedBet>, b: LoadedBet, hasWon: LoadedBet -> bool)
    ensures WinnersOf(bets + [b], hasWon) == WinnersOf(bets, hasWon) + (if hasWon(b) then [(b.agency, b.document)] else [])
  {
    assert (bets + [b])[..|bets|] == bets;
  }

  /** `get_winners_for_agency`'s reading of the per-agency map. */
  function ListFor(perAgency: map<int, seq<int>>, agency: int): seq<int>
  {
    if agency in perAgency then perAgency[agency] else []
  }

  /** The per-agency lists are exactly the winners list grouped by agency. */
  ghost predicate Agrees(winners: seq<(int, int)>, perAgency: map<int, seq<int>>)
  {
    forall agency :: ListFor(perAgency, agency) == DnisOf(winners, agency)
  }

  /** Each list of `after` is the list of `before` followed by the dnis that
      `added` holds for the agency. */
  ghost predicate Extends(before: map<int, seq<int>>, after: map<int, seq<int>>, added: seq<(int, int)>)
  {
    forall agency :: ListFor(after, agency) == ListFor(before, agency) + DnisOf(added, agency)
  }

  /** Lists extended by the winners of a run have each grown by exactly the
      agency's winning documents. */
  lemma RunGroupsByAgency(before: map<int, seq<int>>, bets: seq<LoadedBet>, hasWon: LoadedBet -> bool,
                          after: map<int, seq<int>>)
    requires Extends(before, after, WinnersOf(bets, hasWon))
    ensures forall agency :: ListFor(after, agency) == ListFor(before, agency) + AgencyWinners(bets, hasWon, agency)
  {
    forall agency
      ensures ListFor(after, agency) == ListFor(before, agency) + AgencyWinners(bets, hasWon, agency)
    {
      WinnersOfGroupsByAgency(bets, hasWon, agency);
    }
  }

  /** Lists that grouped the winners before a run still group them after it,
      when they were extended by the run's winners. */
  lemma ExtendsKeepsAgreement(winners: seq<(int, int)>, before: map<int, seq<int>>,
                              after: map<int, seq<int>>, added: seq<(int, int)>)
    requires Agrees(winners, before) && Extends(before, after, added)
    ensures Agrees(winners + added, after)
  {
    forall agency
      ensures ListFor(after, agency) == DnisOf(winners + added, agency)
    {
      DnisOfConcat(winners, added, agency);
    }
  }

  /** The reassigning update of `execute_lottery`: the agency's list, or an
      empty one, with the dni appended, stored back. */
  function Recorded(perAgency: map<int, seq<int>>, agency: int, dni: int): map<int, seq<int>>
  {
    perAgency[agency := ListFor(perAgency, agency) + [dni]]
  }

  /** Recording a winner adds its agency as a key and appends its dni to that
      agency's list; the list of any other agency `a` is left alone. */
  lemma RecordedLists(perAgency: map<int, seq<int>>, agency: int, dni: int, a: int)
    ensures Recorded(perAgency, agency, dni).Keys == perAgency.Keys + {agency}
    ensures ListFor(Recorded(perAgency, agency, dni), a)
            == ListFor(perAgency, a) + (if a == agency then [dni] else [])
  {
  }

  /** The per-agency update of `add_winner` as written: through the shared
      dictionary proxy, `self._winners_per_agency[agency]` is a copy, so the
      append on it is lost and only the empty initial list is stored. */
  function InitialisedOnly(perAgency: map<int, seq<int>>, agency: int): (r: map<int, seq<int>>)
    ensures r.Keys == perAgency.Keys + {agency}
    ensures forall a :: ListFor(r, a) == ListFor(perAgency, a)
  {
    if agency in perAgency then perAgency else perAgency[agency := []]
  }

  /** Recording a winner with the reassigning update keeps the lists grouped. */
  lemma RecordKeepsAgreement(winners: seq<(int, int)>, perAgency: map<int, seq<int>>, agency: int, dni: int)
    requires Agrees(winners, perAgency)
    ensures Agrees(winners + [(agency, dni)], Recorded(perAgency, agency, dni))
  {
    forall a
      ensures ListFor(Recorded(perAgency, agency, dni), a) == DnisOf(winners + [(agency, dni)], a)
    {
      RecordedLists(perAgency, agency, dni, a);
      DnisOfAppend(winners, agency, dni, a);
    }
  }

  /** The winners of one more bet: those of the bets before it, followed by
      the bet itself when it won. */
  lemma WinnersOfPrefix(bets: seq<LoadedBet>, i: nat, hasWon: LoadedBet -> bool)
    requires i < |bets|
    ensures hasWon(bets[i]) ==> WinnersOf(bets[..i + 1], hasWon)
                                == WinnersOf(bets[..i], hasWon) + [(bets[i].agency, bets[i].document)]
    ensures !hasWon(bets[i]) ==> WinnersOf(bets[..i + 1], hasWon) == WinnersOf(bets[..i], hasWon)
  {
    assert bets[..i + 1] == bets[..i] + [bets[i]];
    WinnersOfAppend(bets[..i], bets[i], hasWon);
    assert WinnersOf(bets[..i], hasWon) + [] == WinnersOf(bets[..i], hasWon);
  }

  /** Recording one more winner with the reassigning update keeps each list
      equal to its list before the run followed by the agency's winners so
      far. */
  lemma RecordExtends(base: map<int, seq<int>>, perAgency: map<int, seq<int>>, added: seq<(int, int)>,
                      agency: int, dni: int)
    requires Extends(base, perAgency, added)
    ensures Extends(base, Recorded(perAgency, agency, dni), added + [(agency, dni)])
  {
    forall a
      ensures ListFor(Recorded(perAgency, agency, dni), a) == ListFor(base, a) + DnisOf(added + [(agency, dni)], a)
    {
      RecordedLists(perAgency, agency, dni, a);
      DnisOfAppend(added, agency, dni, a);
      AppendAssoc(ListFor(base, a), DnisOf(added, a), if a == agency then [dni] else []);
    }
  }

  /** The state of the lottery loop after its first `i` bets: the winners
      list is the one it started from followed by the winners among them, and
      the per-agency map is the starting one with those winners recorded. */
  ghost predicate Recording(start: seq<(int, int)>, base: map<int, seq<int>>, bets: seq<LoadedBet>,
                            hasWon: LoadedBet -> bool, i: nat, winners: seq<(int, int)>, perAgency: map<int, seq<int>>)
  {
    && i <= |bets|
    && winners == start + WinnersOf(bets[..i], hasWon)
    && perAgency == Grown(base, WinnersOf(bets[..i], hasWon))
  }

  /** One pass of the lottery loop: recording the bet when it won, and
      leaving both collections alone when it did not, keeps `Recording`. */
  lemma RecordingNext(start: seq<(int, int)>, base: map<int, seq<int>>, bets: seq<LoadedBet>,
                      hasWon: LoadedBet -> bool, i: nat, winners: seq<(int, int)>, perAgency: map<int, seq<int>>)
    requires i < |bets| && Recording(start, base, bets, hasWon, i, winners, perAgency)
    ensures var b := bets[i];
            if hasWon(b) then
              Recording(start, base, bets, hasWon, i + 1, winners + [(b.agency, b.document)], Recorded(perAgency, b.agency, b.document))
            else Recording(start, base, bets, hasWon, i + 1, winners, perAgency)
  {
    WinnersOfPrefix(bets, i, hasWon);
    var found, b := WinnersOf(bets[..i], hasWon), bets[i];
    if hasWon(b) {
      GrownSnoc(base, found, b.agency, b.document);
      AppendAssoc(start, found, [(b.agency, b.document)]);
    }
  }

  /** Concatenation is associative; stated once so that the quantified
      proofs about the lists do not have to rediscover it. */
  lemma AppendAssoc<T>(x: seq<T>, y: seq<T>, z: seq<T>)
    ensures (x + y) + z == x + (y + z)
  {
  }

  /** Recording one more winner after `added` is one more reassigning
      update. */
  lemma GrownSnoc(base: map<int, seq<int>>, added: seq<(int, int)>, agency: int, dni: int)
    ensures Grown(base, added + [(agency, dni)]) == Recorded(Grown(base, added), agency, dni)
  {
    assert (added + [(agency, dni)])[..|added|] == added;
  }

  /** The per-agency map after the winners `added` are recorded one by one
      with the reassigning update. */
  function Grown(base: map<int, seq<int>>, added: seq<(int, int)>): map<int, seq<int>>
  {
    if added == [] then base
    else
      var w := added[|added| - 1];
      Recorded(Grown(base, added[..|added| - 1]), w.0, w.1)
  }

  /** Recording winners one by one extends each agency's list by exactly its
      winners among them, in order. */
  lemma {:induction false} GrownExtends(base: map<int, seq<int>>, added: seq<(int, int)>)
    ensures Extends(base, Grown(base, added), added)
  {
    if added == [] {
      assert forall a :: DnisOf(added, a) == [];
    } else {
      var init, w := added[..|added| - 1], added[|added| - 1];
      GrownExtends(base, init);
      RecordExtends(base, Grown(base, init), init, w.0, w.1);
      assert init + [w] == added;
    }
  }

  /** `add_winner` as written: on any monitor whose lists group its winners
      (a fresh one, say), adding a winner lists it among all winners but not
      among its agency's, so the lists no longer agree. */
  lemma AddWinnerLosesDni(winners: seq<(int, int)>, perAgency: map<int, seq<int>>, agency: int, dni: int)
    requires Agrees(winners, perAgency)
    ensures !Agrees(winners + [(agency, dni)], InitialisedOnly(perAgency, agency))
    ensures ListFor(InitialisedOnly(perAgency, agency), agency) == DnisOf(winners, agency)
    ensures DnisOf(winners + [(agency, dni)], agency) == DnisOf(winners, agency) + [dni]
  {
    DnisOfAppend(winners, agency, dni, agency);
  }

  class LotteryMonitor {
    var readiness: map<int, int>
    /** The ports of `readiness` in insertion order, the order in which a
        dictionary yields its values. */
    var ports: seq<int>
    var agencyByPort: map<int, int>
    var winners: seq<(int, int)>
    var winnersPerAgency: map<int, seq<int>>
    var executed: bool
    var complete: bool

    /** `ports` lists the ports of the readiness map, and the completion
        event is set only after the lottery ran. */
    ghost predicate Valid()
      reads this`readiness, this`ports, this`complete, this`executed
    {
      (forall p :: p in readiness <==> p in ports) && (complete ==> executed)
    }

    /** The per-agency lists group the winners list. `execute_lottery` keeps
        this; `add_winner` as written breaks it. */
    ghost predicate Grouped()
      reads this`winners, this`winnersPerAgency
    {
      Agrees(winners, winnersPerAgency)
    }

    constructor ()
      ensures readiness == map[] && agencyByPort == map[]
      ensures winners == [] && winnersPerAgency == map[]
      ensures !executed && !complete
      ensures Valid() && Grouped()
    {
      readiness, ports, agencyByPort := map[], [], map[];
      winners, winnersPerAgency := [], map[];
      executed, complete := false, false;
      forall a ensures ListFor(map[], a) == DnisOf([], a) {
      }
    }

    /** `set_readiness`: only the port's entry changes. */
    method SetReadiness(port: int, state: int)
      requires Valid()
      modifies this`readiness, this`ports
      ensures Valid()
      ensures ports == old(ports) + (if port in old(readiness) then [] else [port])
      ensures readiness == old(readiness)[port := state]
      ensures forall p :: p != port ==> (p in readiness <==> p in old(readiness))
      ensures forall p :: p != port && p in readiness ==> readiness[p] == old(readiness)[p]
    {
      if port !in readiness {
        ports := ports + [port];
      }
      readiness := readiness[port := state];
    }

    /** `get_readiness`: the port's state, or none for an unknown port. */
    function GetReadiness(port: int): (r: Option<int>)
      reads this
      ensures r.Some? <==> port in readiness
      ensures r.Some? ==> r.value == readiness[port]
    {
      if port in readiness then Some(readiness[port]) else None
    }

    /** `all_readiness`: a copy of the whole map. */
    function AllReadiness(): (r: map<int, int>)
      reads this
      ensures r.Keys == readiness.Keys && forall p :: p in r ==> r[p] == readiness[p]
    {
      readiness
    }

    /** `count_connected_agencies`: the ports that reported a state. */
    function CountConnectedAgencies(): (r: nat)
      reads this
      ensures r == |readiness.Keys|
    {
      |readiness|
    }

    /** `all_agencies_ready`: enough agencies connected and none still
        sending bets. */
    method AllAgenciesReady(maxAgencies: int, sendingBetsState: int) returns (r: bool)
      requires Valid()
      ensures r <==> |readiness| >= maxAgencies
                     && forall p :: p in readiness ==> readiness[p] != sendingBetsState
      ensures |readiness| < maxAgencies ==> !r
    {
      if |readiness| < maxAgencies {
        return false;
      }
      var i := 0;
      while i < |ports|
        invariant 0 <= i <= |ports|
        invariant forall p :: p in ports[..i] ==> p in readiness && readiness[p] != sendingBetsState
        decreases |ports| - i
      {
        var port := ports[i];
        assert port in ports;
        var status := readiness[port];
        if status == sendingBetsState {
          assert port in readiness && readiness[port] == sendingBetsState;
          return false;
        }
        assert ports[..i + 1] == ports[..i] + [port];
        i := i + 1;
      }
      assert ports[..i] == ports;
      r := true;
    }

    /** `set_agency_id`: only the port's entry changes. */
    method SetAgencyID(port: int, agencyID: int)
      modifies this`agencyByPort
      ensures agencyByPort == old(agencyByPort)[port := agencyID]
      ensures forall p :: p != port ==> (p in agencyByPort <==> p in old(agencyByPort))
      ensures forall p :: p != port && p in agencyByPort ==> agencyByPort[p] == old(agencyByPort)[p]
    {
      agencyByPort := agencyByPort[port := agencyID];
    }

    /** `get_agency_id`: the port's agency, or none for an unknown port. */
    function GetAgencyID(port: int): (r: Option<int>)
      reads this
      ensures r.Some? <==> port in agencyByPort
      ensures r.Some? ==> r.value == agencyByPort[port]
    {
      if port in agencyByPort then Some(agencyByPort[port]) else None
    }

    /** `execute_lottery`: only the first call runs the lottery. It appends
        the winning bets to the winners list in load order, groups them per
        agency, and then sets the completion event; later calls change
        nothing. */
    method ExecuteLottery(bets: seq<LoadedBet>, hasWon: LoadedBet -> bool) returns (r: bool)
      requires Valid()
      modifies this`executed, this`winners, this`winnersPerAgency, this`complete
      ensures Valid()
      ensures old(Grouped()) ==> Grouped()
      ensures r == !old(executed)
      ensures old(executed) ==> winners == old(winners) && winnersPerAgency == old(winnersPerAgency) && complete == old(complete)
      ensures !old(executed) ==> executed && complete && winners == old(winners) + WinnersOf(bets, hasWon)
      ensures !old(executed) ==> forall agency ::
        ListFor(winnersPerAgency, agency) == ListFor(old(winnersPerAgency), agency) + AgencyWinners(bets, hasWon, agency)
      ensures executed
    {
      if executed {
        return false;
      }
      executed := true;
      RecordWinners(bets, hasWon);
      GrownExtends(old(winnersPerAgency), WinnersOf(bets, hasWon));
      RunGroupsByAgency(old(winnersPerAgency), bets, hasWon, winnersPerAgency);
      if old(Grouped()) {
        ExtendsKeepsAgreement(old(winners), old(winnersPerAgency), winnersPerAgency, WinnersOf(bets, hasWon));
      }
      complete := true;
      r := true;
    }

    /** The loop of `execute_lottery`: each winning bet, in load order, is
        appended to the winners and recorded in its agency's list. */
    method RecordWinners(bets: seq<LoadedBet>, hasWon: LoadedBet -> bool)
      modifies this`winners, this`winnersPerAgency
      ensures winners == old(winners) + WinnersOf(bets, hasWon)
      ensures winnersPerAgency == Grown(old(winnersPerAgency), WinnersOf(bets, hasWon))
    {
      ghost var start, base := winners, winnersPerAgency;
      var i := 0;
      while i < |bets|
        invariant Recording(start, base, bets, hasWon, i, winners, winnersPerAgency)
        decreases |bets| - i
      {
        var bet := bets[i];
        RecordingNext(start, base, bets, hasWon, i, winners, winnersPerAgency);
        if hasWon(bet) {
          var agency := bet.agency;
          var dni := bet.document;
          winners := winners + [(agency, dni)];
          winnersPerAgency := Recorded(winnersPerAgency, agency, dni);
        }
        i := i + 1;
      }
      assert bets[..i] == bets;
    }

    /** `is_lottery_complete`: whether the completion event is set. */
    function IsLotteryComplete(): (r: bool)
      reads this
      ensures Valid() && r ==> executed
    {
      complete
    }

    /** `add_winner` as written: the pair joins the winners list, but the
        agency's list only gets created empty. */
    method AddWinner(agency: int, dni: int)
      modifies this`winners, this`winnersPerAgency
      ensures Valid() <==> old(Valid())
      ensures winners == old(winners) + [(agency, dni)]
      ensures winnersPerAgency == InitialisedOnly(old(winnersPerAgency), agency)
    {
      winners := winners + [(agency, dni)];
      if agency !in winnersPerAgency {
        winnersPerAgency := winnersPerAgency[agency := []];
      }
    }

    /** `get_winners`: every (agency, dni) pair recorded. */
    function GetWinners(): (r: seq<(int, int)>)
      reads this
      ensures |r| == |winners| && forall i :: 0 <= i < |r| ==> r[i] == winners[i]
    {
      winners
    }

    /** `get_winners_for_agency`: the agency's list, empty when it has none;
        while the lists group the winners, exactly the agency's winners in
        order. */
    function GetWinnersForAgency(agency: int): (r: seq<int>)
      reads this
      ensures agency !in winnersPerAgency ==> r == []
      ensures Grouped() ==> r == DnisOf(winners, agency)
    {
      ListFor(winnersPerAgency, agency)
    }

    /** `has_lottery_occurred`: the executed flag. */
    function HasLotteryOccurred(): (r: bool)
      reads this
      ensures r == executed
      ensures Valid() && complete ==> r
    {
      executed
    }
  }
}
