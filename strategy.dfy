/**
  The basic-strategy table (`betMatrix`) and the decision functions that read
  it: `decideFromMatrix`, and the pre-fix and post-fix deciders of the
  unknown-upcard regression test.
*/
module Strategy {
  import opened Optional

  /** A player action, as offered by the game and as returned by a decider. */
  datatype Action = Hit | Stand | Double | Split

  /** The dealer upcards that key the table's columns (`"2"` … `"10"`, `"A"`). */
  datatype Upcard = Two | Three | Four | Five | Six | Seven | Eight | Nine | Ten | Ace

  /** A table cell: hit, stand, double (else hit), double (else stand). */
  datatype Rec = H | S | D | DS

  /** What a decider sees: the player's total, whether it is soft, the dealer
      upcard (None when it is not known) and the offered actions in order. */
  datatype View = View(total: int, soft: bool, up: Option<Upcard>, actions: seq<Action>)

  predicate LowUpcard(up: Upcard) {
    up == Two || up == Three || up == Four || up == Five || up == Six
  }

  /** The hard rows 12..20 of `betMatrix`; every other total has no row. */
  function HardCell(total: int, up: Upcard): Option<Rec> {
    if total == 12 then Some(if up == Four || up == Five || up == Six then S else H)
    else if 13 <= total <= 16 then Some(if LowUpcard(up) then S else H)
    else if 17 <= total <= 20 then Some(S)
    else None
  }

  /** The soft rows 17..20 of `betMatrix`; every other total has no row. */
  function SoftCell(total: int, up: Upcard): Option<Rec> {
    if total == 17 then Some(if up == Three || up == Four || up == Five || up == Six then D else H)
    else if total == 18 then
      Some(if up == Three || up == Four || up == Five || up == Six then DS
           else if up == Nine || up == Ten || up == Ace then H
           else S)
    else if total == 19 || total == 20 then Some(S)
    else None
  }

  /** `betMatrix[soft ? 'soft' : 'hard'][total][upRank]`; an unknown upcard matches no column.
      The table has a cell exactly for a known upcard and a hard total of 12..20
      or a soft total of 17..20. */
  function BetMatrix(total: int, soft: bool, up: Option<Upcard>): (r: Option<Rec>)
    ensures r.Some? <==> up.Some? && (if soft then 17 <= total <= 20 else 12 <= total <= 20)
  {
    match up
    case None => None
    case Some(u) => if soft then SoftCell(total, u) else HardCell(total, u)
  }

  /** The action a table cell asks for first. */
  function Follow(rec: Rec): Action {
    match rec
    case H => Hit
    case S => Stand
    case D => Double
    case DS => Double
  }

  /** `actions[0] || null`. */
  function FirstOffered(actions: seq<Action>): (r: Option<Action>)
    ensures r.Some? <==> |actions| > 0
    ensures r.Some? ==> r.value == actions[0]
  {
    if |actions| == 0 then None else Some(actions[0])
  }

  /** The soft-table step of `decideFromMatrix`; None means "fall through to the hard table". */
  function SoftChoice(v: View): Option<Action> {
    var rec := BetMatrix(v.total, true, v.up);
    if rec == Some(S) && Stand in v.actions then Some(Stand)
    else if rec == Some(H) && Hit in v.actions then Some(Hit)
    else if rec == Some(D) && Double in v.actions then Some(Double)
    else if rec == Some(DS) && Double in v.actions then Some(Double)
    else if rec == Some(DS) && Stand in v.actions then Some(Stand)
    else if v.total < 18 && Hit in v.actions then Some(Hit)
    else if Stand in v.actions then Some(Stand)
    else None
  }

  /** The hard-table step and final fallback of `decideFromMatrix`; None is `null`. */
  function HardChoice(v: View): Option<Action> {
    var rec := BetMatrix(v.total, false, v.up);
    if rec == Some(S) && Stand in v.actions then Some(Stand)
    else if rec == Some(H) && Hit in v.actions then Some(Hit)
    else if rec == Some(D) && Double in v.actions then Some(Double)
    else if rec == Some(D) && Hit in v.actions then Some(Hit)
    else if v.total < 17 && Hit in v.actions then Some(Hit)
    else if Stand in v.actions then Some(Stand)
    else FirstOffered(v.actions)
  }

  /** `decideFromMatrix`: the safety guards, then the soft table, then the hard
      table, then the fallback. It always picks an offered action, and gives
      no action only when none is offered. */
  function DecideFromMatrix(v: View): (r: Option<Action>)
    ensures r.Some? <==> |v.actions| > 0
    ensures r.Some? ==> r.value in v.actions
  {
    if !v.soft && v.total >= 17 && Stand in v.actions then Some(Stand)
    else if v.soft && v.total >= 19 && Stand in v.actions then Some(Stand)
    else if v.soft && SoftChoice(v).Some? then SoftChoice(v)
    else HardChoice(v)
  }

  /** The table of the unknown-upcard regression test: the hard rows 12..17 of
      `betMatrix` and no soft rows. Both of its deciders read it even for soft totals. */
  function StiffMatrix(total: int, up: Option<Upcard>): Option<Rec> {
    if total <= 17 then BetMatrix(total, false, up) else None
  }

  /** The lookup-and-fallback tail shared by the pre-fix and post-fix deciders. */
  function StiffChoice(v: View): Option<Action> {
    var rec := StiffMatrix(v.total, v.up);
    if rec == Some(S) && Stand in v.actions then Some(Stand)
    else if rec == Some(H) && Hit in v.actions then Some(Hit)
    else if v.total < 17 && Hit in v.actions then Some(Hit)
    else if Stand in v.actions then Some(Stand)
    else FirstOffered(v.actions)
  }

  /** `decideFromMatrixBroken`: the hard guard, then the table, then the fallback. */
  function DecideFromMatrixBroken(v: View): (r: Option<Action>)
    ensures r.Some? <==> |v.actions| > 0
    ensures r.Some? ==> r.value in v.actions
  {
    if !v.soft && v.total >= 17 && Stand in v.actions then Some(Stand)
    else StiffChoice(v)
  }

  /** `decideFromMatrixFixed`: as the broken decider, but a hard 13..16 against
      an unknown upcard stands whenever standing is offered. */
  function DecideFromMatrixFixed(v: View): (r: Option<Action>)
    ensures r.Some? <==> |v.actions| > 0
    ensures r.Some? ==> r.value in v.actions
    ensures v.up.None? && !v.soft && 13 <= v.total <= 16 && Stand in v.actions ==> r == Some(Stand)
  {
    if !v.soft && v.total >= 17 && Stand in v.actions then Some(Stand)
    else if v.up.None? && !v.soft && 13 <= v.total <= 16 && Stand in v.actions then Some(Stand)
    else StiffChoice(v)
  }

  // ---------------------------------------------------------------------------
  // Properties of the deciders

  /** Hard 17 or more, or soft 19 or more, stands whenever standing is offered. */
  lemma SafetyGuardsStand(v: View)
    requires Stand in v.actions
    requires (!v.soft && v.total >= 17) || (v.soft && v.total >= 19)
    ensures DecideFromMatrix(v) == Some(Stand)
  {
  }

  /** A table cell is followed whenever its own action is offered:
      S stands, H hits, D and DS double. */
  lemma FollowsTableWhenCellOffered(v: View, rec: Rec)
    requires Follow(rec) in v.actions
    requires BetMatrix(v.total, v.soft, v.up) == Some(rec)
    ensures DecideFromMatrix(v) == Some(Follow(rec))
  {
  }

  /** A DS cell stands when doubling is not offered and standing is. */
  lemma DoubleElseStand(v: View)
    requires BetMatrix(v.total, v.soft, v.up) == Some(DS)
    requires Double !in v.actions && Stand in v.actions
    ensures DecideFromMatrix(v) == Some(Stand)
  {
  }

  /** A D cell (only soft rows hold one) falls back to hitting when doubling is not offered. */
  lemma DoubleElseHit(v: View)
    requires BetMatrix(v.total, v.soft, v.up) == Some(D)
    requires Double !in v.actions && Hit in v.actions
    ensures DecideFromMatrix(v) == Some(Hit)
  {
  }

  /** Below the table's rows (hard under 12, soft under 17) the decider hits
      whenever hitting is offered; it never doubles there. */
  lemma HitsBelowTheTable(v: View)
    requires Hit in v.actions
    requires (!v.soft && v.total < 12) || (v.soft && v.total < 17)
    ensures DecideFromMatrix(v) == Some(Hit)
  {
  }

  /** On every hard view `decideFromMatrix` decides exactly as the pre-fix
      decider: rows 18..20 of its larger table are only reached when standing is
      not offered, and then they match nothing. So it too hits a stiff hand
      against an unknown upcard. */
  lemma MatrixMatchesBrokenOnHardViews(v: View)
    requires !v.soft
    ensures DecideFromMatrix(v) == DecideFromMatrixBroken(v)
  {
  }

  /** The pre-fix decider hits a hard 13..16 against an unknown upcard whenever hitting is offered. */
  lemma BrokenHitsStiffWithoutUpcard(v: View)
    requires v.up.None? && !v.soft && 13 <= v.total <= 16
    requires Hit in v.actions
    ensures DecideFromMatrixBroken(v) == Some(Hit)
  {
  }

  /** The fix changes nothing but the unknown-upcard stiff case. */
  lemma FixedMatchesBrokenElsewhere(v: View)
    requires v.up.Some? || v.soft || v.total < 13 || v.total > 16 || Stand !in v.actions
    ensures DecideFromMatrixFixed(v) == DecideFromMatrixBroken(v)
  {
  }

  /** The decisions the strategy tests pin, with every action offered. */
  lemma PinnedDecisions()
    ensures DecideFromMatrix(View(17, false, Some(Ace), [Hit, Stand, Double, Split])) == Some(Stand)
    ensures DecideFromMatrix(View(16, false, Some(Six), [Hit, Stand, Double, Split])) == Some(Stand)
    ensures DecideFromMatrix(View(16, false, Some(Seven), [Hit, Stand, Double, Split])) == Some(Hit)
    ensures DecideFromMatrix(View(12, false, Some(Three), [Hit, Stand, Double, Split])) == Some(Hit)
    ensures DecideFromMatrix(View(12, false, Some(Four), [Hit, Stand, Double, Split])) == Some(Stand)
    ensures DecideFromMatrix(View(18, true, Some(Two), [Hit, Stand, Double, Split])) == Some(Stand)
    ensures DecideFromMatrix(View(18, true, Some(Six), [Hit, Stand, Double, Split])) == Some(Double)
    ensures DecideFromMatrix(View(18, true, Some(Nine), [Hit, Stand, Double, Split])) == Some(Hit)
    ensures DecideFromMatrix(View(17, true, Some(Six), [Hit, Stand, Double, Split])) == Some(Double)
    ensures DecideFromMatrix(View(19, true, Some(Six), [Hit, Stand, Double, Split])) == Some(Stand)
  {
  }

  /** The regression test's view: hard 13, unknown upcard, [hit, stand]. */
  lemma UnknownUpcardRegression()
    ensures DecideFromMatrixBroken(View(13, false, None, [Hit, Stand])) == Some(Hit)
    ensures forall t :: 13 <= t <= 16 ==> DecideFromMatrixFixed(View(t, false, None, [Hit, Stand])) == Some(Stand)
  {
  }
}
