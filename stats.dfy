/** The statistics cards (js/stats/index.js): the total and four counts by
    état, chosen by mode. */
module Stats {
  import opened Config
  import opened Listing
  import opened Seqs

  function EtatIs(etat: string): Bien -> bool {
    (b: Bien) => b.etat == etat
  }

  /** `countByEtat(etat)`: the number of listings whose état is exactly
      `etat`. */
  function CountByEtat(biens: seq<Bien>, etat: string): (n: nat)
    ensures n <= |biens|
    ensures n == |Filter(biens, EtatIs(etat))|
    ensures n > 0 <==> exists i :: 0 <= i < |biens| && biens[i].etat == etat
  {
    CountIfIsFilterLength(biens, EtatIs(etat));
    CountIfPositive(biens, EtatIs(etat));
    CountIf(biens, EtatIs(etat))
  }

  /** The four états the rental cards count. */
  const LOCATION_STAT_ETATS: seq<string> :=
    ["Nouveau", "Contacté", "En attente de rappel", "Rendez-vous visite"]

  /** The four cards after the total. */
  datatype StatCards = StatCards(total: nat, first: nat, second: nat, third: nat, fourth: nat)

  function Cards(biens: seq<Bien>, etats: seq<string>): StatCards
    requires |etats| == 4
  {
    StatCards(|biens|, CountByEtat(biens, etats[0]), CountByEtat(biens, etats[1]),
              CountByEtat(biens, etats[2]), CountByEtat(biens, etats[3]))
  }

  /** `renderStats()`: the rental cards count Nouveau, Contacté, En attente
      de rappel and Rendez-vous visite; the purchase cards count the four
      purchase états in order. */
  function RenderStats(biens: seq<Bien>, isLocation: bool): (s: StatCards)
    ensures s.total == |biens|
    ensures isLocation ==> s.first == CountByEtat(biens, "Nouveau") &&
                           s.second == CountByEtat(biens, "Contacté") &&
                           s.third == CountByEtat(biens, "En attente de rappel") &&
                           s.fourth == CountByEtat(biens, "Rendez-vous visite")
    ensures !isLocation ==> s.first == CountByEtat(biens, "À voir") &&
                            s.second == CountByEtat(biens, "Vu") &&
                            s.third == CountByEtat(biens, "Retenu") &&
                            s.fourth == CountByEtat(biens, "Refusé")
  {
    assert ACHAT_ETATS == ["À voir", "Vu", "Retenu", "Refusé"];
    if isLocation then Cards(biens, LOCATION_STAT_ETATS) else Cards(biens, ACHAT_ETATS)
  }

  /** Sum of the counts of several états. */
  function SumCounts(biens: seq<Bien>, etats: seq<string>): nat
    decreases |etats|
  {
    if |etats| == 0 then 0 else CountByEtat(biens, etats[0]) + SumCounts(biens, etats[1..])
  }

  function EtatIn(etats: seq<string>): Bien -> bool {
    (b: Bien) => b.etat in etats
  }

  /** For pairwise distinct états, the sum of their counts is the number of
      listings holding any of them. */
  lemma {:induction false} SumCountsIsCountIn(biens: seq<Bien>, etats: seq<string>)
    requires forall i, j :: 0 <= i < j < |etats| ==> etats[i] != etats[j]
    ensures SumCounts(biens, etats) == CountIf(biens, EtatIn(etats))
    decreases |etats|
  {
    if |etats| == 0 {
      CountIfAllPass(biens, (b: Bien) => true);
      assert forall x :: EtatIn(etats)(x) == !true;
      NoneCount(biens, EtatIn(etats));
    } else {
      SumCountsIsCountIn(biens, etats[1..]);
      assert forall x :: EtatIn(etats)(x) == (EtatIs(etats[0])(x) || EtatIn(etats[1..])(x)) by {
        assert etats == [etats[0]] + etats[1..];
      }
      CountIfDisjointUnion(biens, EtatIs(etats[0]), EtatIn(etats[1..]), EtatIn(etats));
    }
  }

  lemma {:induction false} NoneCount(s: seq<Bien>, p: Bien -> bool)
    requires forall x :: !p(x)
    ensures CountIf(s, p) == 0
    decreases |s|
  {
    if |s| > 0 { NoneCount(s[1..], p); }
  }

  /** When every listing carries a purchase état, the four purchase cards
      add up to the total. */
  lemma AchatCardsPartition(biens: seq<Bien>)
    requires forall i :: 0 <= i < |biens| ==> biens[i].etat in ACHAT_ETATS
    ensures var s := RenderStats(biens, false); s.first + s.second + s.third + s.fourth == s.total
  {
    assert ACHAT_ETATS == ["À voir", "Vu", "Retenu", "Refusé"];
    SumCountsIsCountIn(biens, ACHAT_ETATS);
    SumCountsFour(biens, ACHAT_ETATS);
    CountIfAllPass(biens, EtatIn(ACHAT_ETATS));
  }

  lemma SumCountsFour(biens: seq<Bien>, etats: seq<string>)
    requires |etats| == 4
    ensures SumCounts(biens, etats) == CountByEtat(biens, etats[0]) + CountByEtat(biens, etats[1]) +
                                       CountByEtat(biens, etats[2]) + CountByEtat(biens, etats[3])
  {
    var t1, t2, t3 := etats[1..], etats[2..], etats[3..];
    assert t1[1..] == t2 && t2[1..] == t3 && t3[1..] == [];
    assert t1[0] == etats[1] && t2[0] == etats[2] && t3[0] == etats[3];
    assert SumCounts(biens, t3) == CountByEtat(biens, etats[3]) + SumCounts(biens, []);
    assert SumCounts(biens, t2) == CountByEtat(biens, etats[2]) + SumCounts(biens, t3);
    assert SumCounts(biens, t1) == CountByEtat(biens, etats[1]) + SumCounts(biens, t2);
  }

  predicate Distinct(etats: seq<string>) {
    forall i, j :: 0 <= i < j < |etats| ==> etats[i] != etats[j]
  }

  /** The rental vocabulary is the four counted états followed by the two
      uncounted ones, all distinct. */
  lemma LocationEtatsSplit()
    ensures LOCATION_ETATS == LOCATION_STAT_ETATS + ["Il faut appeler", "Refusé"]
    ensures Distinct(LOCATION_ETATS) && Distinct(LOCATION_STAT_ETATS)
  {
    EtatValues();
    var e := LOCATION_ETATS;
    assert |e[0]| == 7 && |e[1]| == 8 && |e[2]| == 20 && |e[3]| == 18 && |e[4]| == 15 && |e[5]| == 6;
    forall i, j | 0 <= i < j < |e| ensures e[i] != e[j] {
      if i == 0 {} else if i == 1 {} else if i == 2 {} else if i == 3 {} else {}
    }
  }

  lemma SumCountsTwo(biens: seq<Bien>, etats: seq<string>)
    requires |etats| == 2
    ensures SumCounts(biens, etats) == CountByEtat(biens, etats[0]) + CountByEtat(biens, etats[1])
  {
    var t := etats[1..];
    assert t[1..] == [] && t[0] == etats[1];
    assert SumCounts(biens, t) == CountByEtat(biens, etats[1]) + SumCounts(biens, []);
  }

  /** The rental cards never add up to more than the total; when every
      listing carries a rental état, what they miss is exactly the listings
      "Il faut appeler" and "Refusé". */
  lemma LocationCardsShortfall(biens: seq<Bien>)
    ensures var s := RenderStats(biens, true); s.first + s.second + s.third + s.fourth <= s.total
    ensures (forall i :: 0 <= i < |biens| ==> biens[i].etat in LOCATION_ETATS) ==>
              var s := RenderStats(biens, true);
              s.first + s.second + s.third + s.fourth +
              CountByEtat(biens, "Il faut appeler") + CountByEtat(biens, "Refusé") == s.total
  {
    var extra := ["Il faut appeler", "Refusé"];
    LocationEtatsSplit();
    SumCountsIsCountIn(biens, LOCATION_STAT_ETATS);
    SumCountsIsCountIn(biens, LOCATION_ETATS);
    SumCountsAppend(biens, LOCATION_STAT_ETATS, extra);
    SumCountsFour(biens, LOCATION_STAT_ETATS);
    SumCountsTwo(biens, extra);
    if forall i :: 0 <= i < |biens| ==> biens[i].etat in LOCATION_ETATS {
      CountIfAllPass(biens, EtatIn(LOCATION_ETATS));
    }
  }

  lemma {:induction false} SumCountsAppend(biens: seq<Bien>, xs: seq<string>, ys: seq<string>)
    ensures SumCounts(biens, xs + ys) == SumCounts(biens, xs) + SumCounts(biens, ys)
    decreases |xs|
  {
    if |xs| == 0 {
      assert xs + ys == ys;
    } else {
      assert (xs + ys)[1..] == xs[1..] + ys;
      SumCountsAppend(biens, xs[1..], ys);
    }
  }
}
