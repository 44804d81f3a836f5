/**
 Validating options and dealing roles: shuffle the IDs, give the first ones to
 the mafia, one each to the doctor and the police, the rest to the citizens.
 */
module Dealing {
  import opened GameTypes
  import opened Roster

  datatype Field = PlayerCountField | MaxPlayersField | MafiaCountField | IntroField | DiscussionField

  /** The rules a host's options must meet for a game of `n` players. */
  predicate ValidOptions(o: Options, n: int) {
    && 6 <= n <= 12
    && (o.maxPlayers == 0 || (6 <= o.maxPlayers <= 12 && n <= o.maxPlayers))
    && 1 <= o.mafiaCount < n - o.mafiaCount
    && 3 <= n - o.mafiaCount
    && 5 <= o.introSeconds
    && 30 <= o.discussionSeconds
  }

  predicate BadMaxPlayers(o: Options, n: int) {
    o.maxPlayers != 0 && !(6 <= o.maxPlayers <= 12 && n <= o.maxPlayers)
  }

  predicate BadMafiaCount(o: Options, n: int) { !(1 <= o.mafiaCount < n - o.mafiaCount && 3 <= n - o.mafiaCount) }

  lemma SomeField(errs: seq<Field>)
    ensures errs != [] <==>
      (|| PlayerCountField in errs || MaxPlayersField in errs || MafiaCountField in errs
       || IntroField in errs || DiscussionField in errs)
  {
    if errs != [] {
      var e := errs[0];
      assert e in errs;
      match e {
        case PlayerCountField =>
        case MaxPlayersField =>
        case MafiaCountField =>
        case IntroField =>
        case DiscussionField =>
      }
    }
  }

  method ValidateCounts(o: Options, n: int) returns (errs: seq<Field>)
    ensures PlayerCountField in errs <==> !(6 <= n <= 12)
    ensures MaxPlayersField in errs <==> BadMaxPlayers(o, n)
    ensures MafiaCountField in errs <==> BadMafiaCount(o, n)
    ensures IntroField !in errs && DiscussionField !in errs
  {
    errs := [];
    if n < 6 || n > 12 {
      errs := errs + [PlayerCountField];
    }
    if o.maxPlayers != 0 {
      if o.maxPlayers < 6 || o.maxPlayers > 12 {
        errs := errs + [MaxPlayersField];
      } else if n > o.maxPlayers {
        errs := errs + [MaxPlayersField];
      }
    }
    if o.mafiaCount < 1 {
      errs := errs + [MafiaCountField];
    }
    var citizens := n - o.mafiaCount;
    if o.mafiaCount >= 1 && citizens < o.mafiaCount + 1 {
      errs := errs + [MafiaCountField];
    }
    if o.mafiaCount >= 1 && citizens - 2 < 1 {
      errs := errs + [MafiaCountField];
    }
  }

  /** Collects one entry per violated rule, so that the host sees all of them. */
  method ValidateOptions(o: Options, n: int) returns (errs: seq<Field>)
    ensures errs == [] <==> ValidOptions(o, n)
    ensures PlayerCountField in errs <==> !(6 <= n <= 12)
    ensures MaxPlayersField in errs <==> BadMaxPlayers(o, n)
    ensures MafiaCountField in errs <==> BadMafiaCount(o, n)
    ensures IntroField in errs <==> o.introSeconds < 5
    ensures DiscussionField in errs <==> o.discussionSeconds < 30
  {
    errs := ValidateCounts(o, n);
    if o.introSeconds < 5 {
      errs := errs + [IntroField];
    }
    if o.discussionSeconds < 30 {
      errs := errs + [DiscussionField];
    }
    SomeField(errs);
  }

  /** Performs the swaps in order; a swap outside the list is ignored. */
  function Shuffle(ids: seq<PlayerId>, swaps: seq<(nat, nat)>): (r: seq<PlayerId>)
    ensures |r| == |ids|
  {
    if swaps == [] then ids
    else
      var front := Shuffle(ids, swaps[..|swaps| - 1]);
      Swap(front, swaps[|swaps| - 1])
  }

  function Swap(ids: seq<PlayerId>, p: (nat, nat)): (r: seq<PlayerId>)
    ensures |r| == |ids|
  {
    if p.0 < |ids| && p.1 < |ids| then ids[p.0 := ids[p.1]][p.1 := ids[p.0]] else ids
  }

  lemma SwapPermutes(ids: seq<PlayerId>, p: (nat, nat))
    ensures multiset(Swap(ids, p)) == multiset(ids)
  {
  }

  /** A shuffle is a permutation. */
  lemma {:induction false} ShufflePermutes(ids: seq<PlayerId>, swaps: seq<(nat, nat)>)
    ensures multiset(Shuffle(ids, swaps)) == multiset(ids)
  {
    hide Swap;
    if swaps != [] {
      ShufflePermutes(ids, swaps[..|swaps| - 1]);
      SwapPermutes(Shuffle(ids, swaps[..|swaps| - 1]), swaps[|swaps| - 1]);
    }
  }

  /** The role of the i-th shuffled player when there are k mafia. */
  function RoleAt(i: int, k: int): Role {
    if i < k then Mafia else if i == k then Doctor else if i == k + 1 then Police else Citizen
  }

  /** The roles given to the first `n` shuffled players. */
  function Roles(shuffled: seq<PlayerId>, k: int, n: nat): map<PlayerId, Role>
    requires n <= |shuffled|
  {
    if n == 0 then map[] else Roles(shuffled, k, n - 1)[shuffled[n - 1] := RoleAt(n - 1, k)]
  }

  function KeywordFor(kw: Keywords, r: Role): string {
    match r
    case Mafia => kw.mafia
    case Citizen => kw.citizen
    case Doctor => kw.doctor
    case Police => kw.police
    case NoRole => ""
  }

  datatype Assignment = Assignment(roles: map<PlayerId, Role>, keywords: Keywords, mafiaIds: seq<PlayerId>,
                                   rep: PlayerId)

  /** Every failure of dealing is a validation error. */
  function Assign(ids: seq<PlayerId>, o: Options, deal: Deal): Option<Assignment> {
    if !ValidOptions(o, |ids|) || deal.keywords.None? then None
    else
      var shuffled := Shuffle(ids, deal.swaps);
      Some(Assignment(Roles(shuffled, o.mafiaCount, |ids|), deal.keywords.value,
                      shuffled[..o.mafiaCount], shuffled[deal.rep % o.mafiaCount]))
  }

  function RoleIn(roles: map<PlayerId, Role>, id: PlayerId): Role {
    if id in roles then roles[id] else NoRole
  }

  /** Gives every listed player life, the dealt role and its keyword. */
  function Seat(ps: seq<Player>, a: Assignment): (r: seq<Player>)
    ensures |r| == |ps|
    ensures forall i :: 0 <= i < |ps| ==>
      r[i] == Player(ps[i].id, ps[i].name, true, RoleIn(a.roles, ps[i].id),
                     KeywordFor(a.keywords, RoleIn(a.roles, ps[i].id)))
  {
    seq(|ps|, i requires 0 <= i < |ps| =>
      Player(ps[i].id, ps[i].name, true, RoleIn(a.roles, ps[i].id), KeywordFor(a.keywords, RoleIn(a.roles, ps[i].id))))
  }

  // ---------------------------------------------------------------- counting the deal

  ghost predicate NoRepeat(ids: seq<PlayerId>) {
    forall i, j :: 0 <= i < j < |ids| ==> ids[i] != ids[j]
  }

  function Hit(roles: map<PlayerId, Role>, id: PlayerId): nat {
    if RoleIn(roles, id).Mafia? then 1 else 0
  }

  ghost function Hits(roles: map<PlayerId, Role>, ids: seq<PlayerId>): nat {
    if ids == [] then 0 else Hits(roles, ids[..|ids| - 1]) + Hit(roles, ids[|ids| - 1])
  }

  lemma {:induction false} HitsUpdate(roles: map<PlayerId, Role>, ids: seq<PlayerId>, i: nat, v: PlayerId)
    requires i < |ids|
    ensures Hits(roles, ids[i := v]) == Hits(roles, ids) - Hit(roles, ids[i]) + Hit(roles, v)
  {
    var front := ids[..|ids| - 1];
    if i == |ids| - 1 {
      assert ids[i := v][..|ids| - 1] == front;
    } else {
      HitsUpdate(roles, front, i, v);
      assert ids[i := v][..|ids| - 1] == front[i := v];
    }
  }

  lemma SwapKeeps(roles: map<PlayerId, Role>, ids: seq<PlayerId>, p: (nat, nat))
    ensures Hits(roles, Swap(ids, p)) == Hits(roles, ids)
    ensures NoRepeat(ids) ==> NoRepeat(Swap(ids, p))
  {
    if p.0 < |ids| && p.1 < |ids| {
      HitsUpdate(roles, ids, p.0, ids[p.1]);
      HitsUpdate(roles, ids[p.0 := ids[p.1]], p.1, ids[p.0]);
    }
  }

  /** Shuffling changes neither how many mafia are counted nor distinctness. */
  lemma {:induction false} ShuffleKeeps(roles: map<PlayerId, Role>, ids: seq<PlayerId>, swaps: seq<(nat, nat)>)
    ensures Hits(roles, Shuffle(ids, swaps)) == Hits(roles, ids)
    ensures NoRepeat(ids) ==> NoRepeat(Shuffle(ids, swaps))
  {
    hide Swap;
    if swaps != [] {
      ShuffleKeeps(roles, ids, swaps[..|swaps| - 1]);
      SwapKeeps(roles, Shuffle(ids, swaps[..|swaps| - 1]), swaps[|swaps| - 1]);
    }
  }

  lemma {:induction false} RolesByPosition(shuffled: seq<PlayerId>, k: int, n: nat, i: nat)
    requires NoRepeat(shuffled) && i < n <= |shuffled|
    ensures RoleIn(Roles(shuffled, k, n), shuffled[i]) == RoleAt(i, k)
  {
    if i < n - 1 {
      RolesByPosition(shuffled, k, n - 1, i);
    }
  }

  lemma {:induction false} HitsByPosition(shuffled: seq<PlayerId>, k: nat, n: nat)
    requires NoRepeat(shuffled) && n <= |shuffled|
    ensures Hits(Roles(shuffled, k, |shuffled|), shuffled[..n]) == if n < k then n else k
  {
    if n > 0 {
      HitsByPosition(shuffled, k, n - 1);
      RolesByPosition(shuffled, k, |shuffled|, n - 1);
      assert shuffled[..n][..n - 1] == shuffled[..n - 1];
    }
  }

  lemma {:induction false} SeatedMafia(ps: seq<Player>, a: Assignment)
    ensures LiveMafia(Seat(ps, a)) == Hits(a.roles, Ids(ps))
    ensures Live(Seat(ps, a)) == |ps|
  {
    if ps != [] {
      var front := ps[..|ps| - 1];
      SeatedMafia(front, a);
      assert Seat(ps, a)[..|ps| - 1] == Seat(front, a);
      assert Ids(ps)[..|ps| - 1] == Ids(front);
    }
  }

  /**
   A successful deal over distinct IDs makes exactly `mafiaCount` living mafia and
   leaves the citizen side in the majority, and its representative is one of the
   mafia: the game starts undecided.
   */
  lemma DealIsBalanced(ps: seq<Player>, o: Options, deal: Deal)
    requires ProperIds(ps) && Assign(Ids(ps), o, deal).Some?
    ensures
      var a := Assign(Ids(ps), o, deal).value;
      && LiveMafia(Seat(ps, a)) == o.mafiaCount
      && Balanced(Seat(ps, a))
      && RightRepresentative(Seat(ps, a), a.rep)
      && RoleIn(a.roles, a.rep).Mafia?
  {
    hide Swap, Shuffle, Roles, NoRepeat;
    var ids := Ids(ps);
    var a := Assign(ids, o, deal).value;
    var shuffled := Shuffle(ids, deal.swaps);
    IdsNoRepeat(ps);
    ShuffleKeeps(a.roles, ids, deal.swaps);
    HitsByPosition(shuffled, o.mafiaCount, |shuffled|);
    assert shuffled[..|shuffled|] == shuffled;
    SeatedMafia(ps, a);
    LiveSplits(Seat(ps, a));
    var i := DealtRepresentative(ps, o, deal);
    IndexOfPlayer(ps, i);
    SeatKeepsIndex(ps, a, a.rep);
  }

  lemma SeatKeepsIndex(ps: seq<Player>, a: Assignment, id: PlayerId)
    ensures Index(Seat(ps, a), id) == Index(ps, id)
  {
    var i, j := Index(Seat(ps, a), id), Index(ps, id);
    assert i < |ps| ==> ps[i].id == id;
    assert j < |ps| ==> Seat(ps, a)[j].id == id;
  }

  lemma IdsNoRepeat(ps: seq<Player>)
    requires Distinct(ps)
    ensures NoRepeat(Ids(ps))
  {
  }

  /** The seat of the dealt representative, who is mafia. */
  lemma DealtRepresentative(ps: seq<Player>, o: Options, deal: Deal) returns (i: nat)
    requires ProperIds(ps) && Assign(Ids(ps), o, deal).Some?
    ensures
      var a := Assign(Ids(ps), o, deal).value;
      i < |ps| && ps[i].id == a.rep && RoleIn(a.roles, a.rep).Mafia?
  {
    var ids := Ids(ps);
    var a := Assign(ids, o, deal).value;
    var shuffled := Shuffle(ids, deal.swaps);
    ShuffleKeeps(a.roles, ids, deal.swaps);
    RolesByPosition(shuffled, o.mafiaCount, |shuffled|, deal.rep % o.mafiaCount);
    ShufflePermutes(ids, deal.swaps);
    assert a.rep in multiset(shuffled);
    i :| 0 <= i < |ids| && ids[i] == a.rep;
  }

  /** The cohort of a deal is exactly the players it seats as mafia. */
  lemma CohortIsTheMafia(ps: seq<Player>, o: Options, deal: Deal, id: PlayerId)
    requires ProperIds(ps) && Assign(Ids(ps), o, deal).Some?
    ensures
      var a := Assign(Ids(ps), o, deal).value;
      id in a.mafiaIds <==> Has(Seat(ps, a), id) && RoleOf(Seat(ps, a), id).Mafia?
  {
    hide Swap, Shuffle, NoRepeat, Roles, ValidOptions;
    var ids := Ids(ps);
    var a := Assign(ids, o, deal).value;
    var shuffled := Shuffle(ids, deal.swaps);
    IdsNoRepeat(ps);
    ShuffleKeeps(a.roles, ids, deal.swaps);
    SeatKeepsIndex(ps, a, id);
    MafiaFitsTable(o, |ids|);
    if id in a.mafiaIds {
      var k :| 0 <= k < o.mafiaCount && shuffled[k] == id;
      RolesByPosition(shuffled, o.mafiaCount, |shuffled|, k);
      SeatOfShuffled(ps, deal, k);
    }
    if Has(Seat(ps, a), id) && RoleOf(Seat(ps, a), id).Mafia? {
      var k := DealtPosition(shuffled, o.mafiaCount, |shuffled|, id);
      RolesByPosition(shuffled, o.mafiaCount, |shuffled|, k);
      assert a.mafiaIds[k] == id;
    }
  }

  lemma MafiaFitsTable(o: Options, n: nat)
    requires ValidOptions(o, n)
    ensures 1 <= o.mafiaCount && o.mafiaCount + 2 < n
  {
  }

  /** Whoever is in the shuffled list has a seat. */
  lemma SeatOfShuffled(ps: seq<Player>, deal: Deal, k: nat)
    requires k < |Shuffle(Ids(ps), deal.swaps)|
    ensures Has(ps, Shuffle(Ids(ps), deal.swaps)[k])
  {
    hide Shuffle;
    var ids := Ids(ps);
    var shuffled := Shuffle(ids, deal.swaps);
    ShufflePermutes(ids, deal.swaps);
    assert shuffled[k] in multiset(shuffled);
    var i :| 0 <= i < |ids| && ids[i] == shuffled[k];
    assert ps[i].id == shuffled[k];
  }

  /** Only one of the dealt players is the police. */
  lemma DealtOnePolice(ids: seq<PlayerId>, o: Options, deal: Deal, x: PlayerId, y: PlayerId)
    requires NoRepeat(ids) && Assign(ids, o, deal).Some?
    requires
      var roles := Assign(ids, o, deal).value.roles;
      RoleIn(roles, x).Police? && RoleIn(roles, y).Police?
    ensures x == y
  {
    var shuffled := Shuffle(ids, deal.swaps);
    ShuffleKeeps(map[], ids, deal.swaps);
    var i := DealtPosition(shuffled, o.mafiaCount, |shuffled|, x);
    var j := DealtPosition(shuffled, o.mafiaCount, |shuffled|, y);
    RolesByPosition(shuffled, o.mafiaCount, |shuffled|, i);
    RolesByPosition(shuffled, o.mafiaCount, |shuffled|, j);
  }

  lemma {:induction false} DealtPosition(shuffled: seq<PlayerId>, k: int, n: nat, x: PlayerId) returns (i: nat)
    requires n <= |shuffled| && x in Roles(shuffled, k, n)
    ensures i < n && shuffled[i] == x
  {
    if shuffled[n - 1] == x {
      i := n - 1;
    } else {
      i := DealtPosition(shuffled, k, n - 1, x);
    }
  }

  /** The player who is dealt the role of this position in the shuffled list, and no other. */
  lemma DealtAt(ids: seq<PlayerId>, o: Options, deal: Deal, k: nat, x: PlayerId)
    requires NoRepeat(ids) && Assign(ids, o, deal).Some? && k < |Shuffle(ids, deal.swaps)|
    requires x in Assign(ids, o, deal).value.roles
    ensures
      var roles, y := Assign(ids, o, deal).value.roles, Shuffle(ids, deal.swaps)[k];
      && RoleIn(roles, y) == RoleAt(k, o.mafiaCount)
      && (k == o.mafiaCount && RoleIn(roles, x).Doctor? ==> x == y)
      && (k == o.mafiaCount + 1 && RoleIn(roles, x).Police? ==> x == y)
      && !RoleIn(roles, x).NoRole?
  {
    hide Shuffle, Swap, ValidOptions;
    var shuffled := Shuffle(ids, deal.swaps);
    ShuffleKeeps(map[], ids, deal.swaps);
    RolesByPosition(shuffled, o.mafiaCount, |shuffled|, k);
    var j := DealtPosition(shuffled, o.mafiaCount, |shuffled|, x);
    RolesByPosition(shuffled, o.mafiaCount, |shuffled|, j);
  }

  lemma {:induction false} EveryoneIsDealt(shuffled: seq<PlayerId>, k: int, n: nat, i: nat)
    requires i < n <= |shuffled|
    ensures shuffled[i] in Roles(shuffled, k, n)
  {
    if i < n - 1 {
      EveryoneIsDealt(shuffled, k, n - 1, i);
    }
  }

  /** A player with a role and the keyword drawn for it. */
  predicate HoldsKeyword(p: Player, kw: Keywords) {
    match p.role
    case Mafia => p.keyword == kw.mafia
    case Citizen => p.keyword == kw.citizen
    case Doctor => p.keyword == kw.doctor
    case Police => p.keyword == kw.police
    case NoRole => false
  }

  /**
   A deal over distinct IDs seats exactly one doctor and exactly one police officer, leaves
   nobody without a role, and gives everybody the keyword of its role.
   */
  lemma DealIsComplete(ps: seq<Player>, o: Options, deal: Deal) returns (doctor: nat, police: nat)
    requires ProperIds(ps) && Assign(Ids(ps), o, deal).Some?
    ensures
      var seats, kw := Seat(ps, Assign(Ids(ps), o, deal).value), deal.keywords.value;
      && doctor < |seats| && police < |seats|
      && (forall i :: 0 <= i < |seats| ==> (seats[i].role.Doctor? <==> i == doctor))
      && (forall i :: 0 <= i < |seats| ==> (seats[i].role.Police? <==> i == police))
      && (forall i :: 0 <= i < |seats| ==> HoldsKeyword(seats[i], kw))
  {
    hide Shuffle, Swap, ValidOptions, Roles, NoRepeat, Index;
    var ids := Ids(ps);
    var a := Assign(ids, o, deal).value;
    var shuffled := Shuffle(ids, deal.swaps);
    IdsNoRepeat(ps);
    MafiaFitsTable(o, |ids|);
    SeatOfShuffled(ps, deal, o.mafiaCount);
    SeatOfShuffled(ps, deal, o.mafiaCount + 1);
    doctor, police := Index(ps, shuffled[o.mafiaCount]), Index(ps, shuffled[o.mafiaCount + 1]);
    EveryoneIsDealt(shuffled, o.mafiaCount, |shuffled|, o.mafiaCount);
    DealtAt(ids, o, deal, o.mafiaCount, shuffled[o.mafiaCount]);
    DealtAt(ids, o, deal, o.mafiaCount + 1, shuffled[o.mafiaCount]);
    SeatFound(ps, shuffled[o.mafiaCount]);
    SeatFound(ps, shuffled[o.mafiaCount + 1]);
    forall i | 0 <= i < |ps|
      ensures ps[i].id in a.roles && !RoleIn(a.roles, ps[i].id).NoRole?
      ensures RoleIn(a.roles, ps[i].id).Doctor? ==> i == doctor
      ensures RoleIn(a.roles, ps[i].id).Police? ==> i == police
    {
      SeatIsDealt(ps, o, deal, i);
      DealtAt(ids, o, deal, o.mafiaCount, ps[i].id);
      DealtAt(ids, o, deal, o.mafiaCount + 1, ps[i].id);
      IndexOfPlayer(ps, i);
    }
  }

  lemma SeatFound(ps: seq<Player>, id: PlayerId)
    requires Has(ps, id)
    ensures Index(ps, id) < |ps| && ps[Index(ps, id)].id == id
  {
  }

  lemma SeatIsDealt(ps: seq<Player>, o: Options, deal: Deal, i: nat)
    requires Assign(Ids(ps), o, deal).Some? && i < |ps|
    ensures ps[i].id in Assign(Ids(ps), o, deal).value.roles
  {
    hide Shuffle, ValidOptions, Roles;
    var ids := Ids(ps);
    var shuffled := Shuffle(ids, deal.swaps);
    ShufflePermutes(ids, deal.swaps);
    assert ids[i] in multiset(ids);
    assert ids[i] in multiset(shuffled);
    var k :| 0 <= k < |shuffled| && shuffled[k] == ids[i];
    EveryoneIsDealt(shuffled, o.mafiaCount, |shuffled|, k);
  }
}
