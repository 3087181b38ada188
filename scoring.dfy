/** ScoreCalculatorService: reduces a passation's 'oui'/'non' answers to a
    domain x part grid of counts, sums each domain, classifies it into a risk tier,
    renders the automatic interpretation, and checks the answers for consistency. */
module ScoreCalculator {
  import opened Base
  import opened Ide
  import opened Entities

  // ---------------------------------------------------------------------------
  // Rows: the PHP arrays partie => count, in insertion order.

  /** `$row[$p]`: the count stored under a part, None when the key is missing. */
  function Get(row: Row, p: string): Option<int> {
    if row == [] then None
    else if row[0].partie == p then Some(row[0].count)
    else Get(row[1..], p)
  }

  /** `array_sum($row)`. */
  function Sum(row: Row): int {
    if row == [] then 0 else row[0].count + Sum(row[1..])
  }

  /** `$row[$p]++`: adds one to the part's count, or creates it at 1 when the key
      is missing, as PHP does when incrementing an undefined key; no other part
      changes. */
  function Bump(row: Row, p: string): (r: Row)
    ensures Sum(r) == Sum(row) + 1
    ensures Get(r, p) == Some(if Get(row, p).Some? then Get(row, p).value + 1 else 1)
  {
    if row == [] then [Cell(p, 1)]
    else if row[0].partie == p then
      var r := [Cell(p, row[0].count + 1)] + row[1..];
      assert r[1..] == row[1..];
      r
    else
      var rest := Bump(row[1..], p);
      var r := [row[0]] + rest;
      assert r[1..] == rest;
      r
  }

  /** Bumping one part leaves every other part as it was. */
  lemma {:induction false} BumpOther(row: Row, p: string, q: string)
    requires q != p
    ensures Get(Bump(row, p), q) == Get(row, q)
  {
    if row != [] && row[0].partie != p {
      BumpOther(row[1..], p, q);
      assert Bump(row, p)[1..] == Bump(row[1..], p);
    } else if row != [] {
      assert Bump(row, p)[1..] == row[1..];
    }
  }

  /** A row with every given part at zero. */
  function ZeroRow(parts: seq<string>): (r: Row)
    ensures Sum(r) == 0
    ensures forall p {:trigger Get(r, p)} :: Get(r, p) == if p in parts then Some(0) else None
  {
    if parts == [] then []
    else
      var r := [Cell(parts[0], 0)] + ZeroRow(parts[1..]);
      assert r[1..] == ZeroRow(parts[1..]);
      r
  }

  lemma {:induction false} ZeroRowSnoc(parts: seq<string>, p: string)
    ensures ZeroRow(parts + [p]) == ZeroRow(parts) + [Cell(p, 0)]
  {
    if parts != [] {
      assert (parts + [p])[1..] == parts[1..] + [p];
      ZeroRowSnoc(parts[1..], p);
    }
  }

  // ---------------------------------------------------------------------------
  // The grid: one row per catalogue domain, indexed like DomainCodes.

  type Grid = seq<Row>

  /** ScoreCalculatorService::initialiserScores as a value: every domain, DG
      included, crossed with every part, all at zero. */
  function InitialGrid(): (g: Grid)
    ensures |g| == |DomainCodes|
    ensures forall d :: 0 <= d < |g| ==> Sum(g[d]) == 0
    ensures forall d, p :: 0 <= d < |g| ==> Get(g[d], p) == if p in PartCodes then Some(0) else None
  {
    seq(|DomainCodes|, _ => ZeroRow(PartCodes))
  }

  method InitialiserScores() returns (g: Grid)
    ensures g == InitialGrid()
  {
    g := [];
    for d := 0 to |DomainCodes|
      invariant g == InitialGrid()[..d]
    {
      var row := InitialiserLigne(PartCodes);
      g := g + [row];
    }
  }

  /** The inner loop of initialiserScores: every part at zero, in order. */
  method InitialiserLigne(parts: seq<string>) returns (row: Row)
    ensures row == ZeroRow(parts)
  {
    row := [];
    for p := 0 to |parts|
      invariant row == ZeroRow(parts[..p])
    {
      ZeroRowSnoc(parts[..p], parts[p]);
      assert parts[..p + 1] == parts[..p] + [parts[p]];
      row := row + [Cell(parts[p], 0)];
    }
    assert parts[..|parts|] == parts;
  }

  // ---------------------------------------------------------------------------
  // The scoring loop of calculerScoresIDE.

  /** The item was answered exactly 'oui'; a missing or any other answer is not. */
  predicate Oui(reponses: map<string, string>, item: ItemIDE) {
    item.Identifiant() in reponses && reponses[item.Identifiant()] == "oui"
  }

  /** One iteration: a 'oui' item adds one to its own (domain, part) cell when that
      cell exists, and, when it counts for DG, one to the DG cell of its part,
      creating that cell if needed. */
  function Step(g: Grid, item: ItemIDE, reponses: map<string, string>): Grid
    requires |g| == |DomainCodes|
  {
    if !Oui(reponses, item) then g
    else
      var g1 := seq(|g|, d requires 0 <= d < |g| => OwnCell(g[d], d, item));
      if item.compteDg then g1[DgIndex := Bump(g1[DgIndex], item.partie)] else g1
  }

  /** The guarded increment `$scores[$domaine][$partie]++`, with the row looked up
      by key as the source does. */
  function OwnStep(g: Grid, item: ItemIDE): (r: Grid)
    requires |g| == |DomainCodes|
    ensures |r| == |g|
  {
    match IndexOf(DomainCodes, item.domaine)
    case Some(d) => if Get(g[d], item.partie).Some? then g[d := Bump(g[d], item.partie)] else g
    case None => g
  }

  /** Row `d` after a 'oui' on `item`, before the DG bonus: bumped when the item
      belongs to that domain and the row has its part. */
  function OwnCell(row: Row, d: nat, item: ItemIDE): Row
    requires d < |DomainCodes|
  {
    if item.domaine == DomainCodes[d] && Get(row, item.partie).Some? then Bump(row, item.partie) else row
  }

  /** Looking the domain up by key touches exactly the row whose code is the
      item's domain: catalogue codes are distinct. */
  lemma OwnStepRow(g: Grid, item: ItemIDE, d: nat)
    requires |g| == |DomainCodes| && d < |DomainCodes|
    ensures OwnStep(g, item)[d] == OwnCell(g[d], d, item)
  {
    DomainCodeIndex(d);
  }

  /** A step looks the item's row up by key. */
  lemma StepByKey(g: Grid, item: ItemIDE, reponses: map<string, string>)
    requires |g| == |DomainCodes|
    ensures Step(g, item, reponses) ==
              if !Oui(reponses, item) then g
              else
                var g1 := OwnStep(g, item);
                if item.compteDg then g1[DgIndex := Bump(g1[DgIndex], item.partie)] else g1
  {
    var g1 := seq(|g|, d requires 0 <= d < |g| => OwnCell(g[d], d, item));
    forall d | 0 <= d < |g|
      ensures g1[d] == OwnStep(g, item)[d]
    {
      OwnStepRow(g, item, d);
    }
    assert g1 == OwnStep(g, item);
  }

  lemma StepDomainRow(g: Grid, item: ItemIDE, reponses: map<string, string>, d: nat)
    requires |g| == |DomainCodes| && d < |DomainCodes| && d != DgIndex
    ensures Step(g, item, reponses)[d] ==
              if Oui(reponses, item) && item.domaine == DomainCodes[d] && Get(g[d], item.partie).Some?
              then Bump(g[d], item.partie) else g[d]
  {
  }

  lemma StepDgRow(g: Grid, item: ItemIDE, reponses: map<string, string>)
    requires |g| == |DomainCodes|
    ensures var own := if item.domaine == Dg && Get(g[DgIndex], item.partie).Some?
                       then Bump(g[DgIndex], item.partie) else g[DgIndex];
            Step(g, item, reponses)[DgIndex] ==
              if !Oui(reponses, item) then g[DgIndex]
              else if item.compteDg then Bump(own, item.partie) else own
  {
  }

  /** How one step changes one cell of a domain row other than DG. */
  lemma StepDomainGet(g: Grid, item: ItemIDE, reponses: map<string, string>, d: nat, q: string)
    requires |g| == |DomainCodes| && d < |DomainCodes| && d != DgIndex
    ensures Get(Step(g, item, reponses)[d], q) ==
              if Oui(reponses, item) && item.domaine == DomainCodes[d] && item.partie == q && Get(g[d], q).Some?
              then Some(Get(g[d], q).value + 1) else Get(g[d], q)
  {
    StepDomainRow(g, item, reponses, d);
    if item.partie != q {
      BumpOther(g[d], item.partie, q);
    }
  }

  /** How one step changes one cell of the DG row. */
  lemma StepDgGet(g: Grid, item: ItemIDE, reponses: map<string, string>, q: string)
    requires |g| == |DomainCodes|
    ensures Get(Step(g, item, reponses)[DgIndex], q) ==
              if !Oui(reponses, item) || item.partie != q then Get(g[DgIndex], q)
              else if Get(g[DgIndex], q).Some? then
                Some(Get(g[DgIndex], q).value + (if item.domaine == Dg then 1 else 0) + (if item.compteDg then 1 else 0))
              else if item.compteDg then Some(1)
              else None
  {
    StepDgRow(g, item, reponses);
    if item.partie != q {
      BumpOther(g[DgIndex], item.partie, q);
      if item.domaine == Dg && Get(g[DgIndex], item.partie).Some? {
        BumpOther(Bump(g[DgIndex], item.partie), item.partie, q);
      }
    }
  }

  /** The grid after scoring `items` in order. */
  function Tally(items: seq<ItemIDE>, reponses: map<string, string>): (g: Grid)
    ensures |g| == |DomainCodes|
  {
    if items == [] then InitialGrid()
    else Step(Tally(items[..|items| - 1], reponses), items[|items| - 1], reponses)
  }

  lemma TallyLast(items: seq<ItemIDE>, reponses: map<string, string>)
    requires items != []
    ensures Tally(items, reponses) == Step(Tally(items[..|items| - 1], reponses), items[|items| - 1], reponses)
  {
  }

  /** The grid keeps its shape: a domain row other than DG holds exactly the
      catalogue parts; the DG row holds them all and may hold more. */
  lemma {:induction false} TallyShape(items: seq<ItemIDE>, reponses: map<string, string>, d: nat, p: string)
    requires d < |DomainCodes|
    ensures d != DgIndex ==> (Get(Tally(items, reponses)[d], p).Some? <==> p in PartCodes)
    ensures d == DgIndex && p in PartCodes ==> Get(Tally(items, reponses)[d], p).Some?
  {
    if items != [] {
      var prefix := items[..|items| - 1];
      TallyShape(prefix, reponses, d, p);
      if d == DgIndex {
        StepDgGet(Tally(prefix, reponses), items[|items| - 1], reponses, p);
      } else {
        StepDomainGet(Tally(prefix, reponses), items[|items| - 1], reponses, d, p);
      }
    }
  }

  /** The per-domain loop of calculerScoresIDE. */
  method ScoreItems(items: seq<ItemIDE>, reponses: map<string, string>) returns (g: Grid)
    ensures g == Tally(items, reponses)
  {
    g := InitialiserScores();
    for i := 0 to |items|
      invariant g == Tally(items[..i], reponses)
    {
      assert items[..i + 1][..i] == items[..i];
      var item := items[i];
      var itemId := item.Identifiant();
      var reponse := if itemId in reponses then Some(reponses[itemId]) else None;
      StepByKey(g, item, reponses);
      if reponse == Some("oui") {
        var domaine := item.domaine;
        var partie := item.partie;
        match IndexOf(DomainCodes, domaine) {
          case Some(d) =>
            if Get(g[d], partie).Some? {
              g := g[d := Bump(g[d], partie)];
            }
          case None =>
        }
        if item.compteDg {
          g := g[DgIndex := Bump(g[DgIndex], partie)];
        }
      }
    }
    assert items[..|items|] == items;
  }

  // ---------------------------------------------------------------------------
  // Totals and tiers (calculerTotaux, determinerNiveauxRisque).

  datatype DomainTotal = DomainTotal(domaine: string, parties: Row, total: int)

  function Totaux(g: Grid): (t: seq<DomainTotal>)
    requires |g| == |DomainCodes|
    ensures |t| == |g|
    ensures forall d :: 0 <= d < |t| ==> t[d].domaine == DomainCodes[d] && t[d].parties == g[d]
    ensures forall d :: 0 <= d < |t| ==> t[d].total == Sum(g[d])
  {
    seq(|g|, d requires 0 <= d < |g| => DomainTotal(DomainCodes[d], g[d], Sum(g[d])))
  }

  method CalculerTotaux(g: Grid) returns (t: seq<DomainTotal>)
    requires |g| == |DomainCodes|
    ensures t == Totaux(g)
  {
    t := [];
    for d := 0 to |g|
      invariant t == Totaux(g)[..d]
    {
      var total := Sum(g[d]);
      t := t + [DomainTotal(DomainCodes[d], g[d], total)];
    }
  }

  function NiveauxRisque(t: seq<DomainTotal>, s: Seuils, ageMois: int): (r: Scores)
    ensures |r| == |t|
    ensures forall d :: 0 <= d < |r| ==>
              r[d].domaine == t[d].domaine && r[d].score == t[d].total && r[d].parties == t[d].parties
    ensures forall d :: 0 <= d < |r| ==>
              r[d].seuilHr == s.hautRisque && r[d].seuilThr == s.tresHautRisque && r[d].ageChronologique == ageMois
    ensures forall d :: 0 <= d < |r| ==> r[d].niveau == CalculerNiveauRisque(t[d].total, ageMois, s)
  {
    seq(|t|, d requires 0 <= d < |t| =>
      DomainScore(t[d].domaine, t[d].total, t[d].parties, s.hautRisque, s.tresHautRisque,
                  CalculerNiveauRisque(t[d].total, ageMois, s), ageMois))
  }

  method DeterminerNiveauxRisque(t: seq<DomainTotal>, s: Seuils, ageMois: int) returns (r: Scores)
    ensures r == NiveauxRisque(t, s, ageMois)
  {
    r := [];
    for d := 0 to |t|
      invariant r == NiveauxRisque(t, s, ageMois)[..d]
    {
      var score := t[d].total;
      var niveau := CalculerNiveauRisque(score, ageMois, s);
      r := r + [DomainScore(t[d].domaine, score, t[d].parties, s.hautRisque, s.tresHautRisque, niveau, ageMois)];
    }
  }

  /** The result of calculerScoresIDE for the given active items, answers and age. */
  function ScoresIde(items: seq<ItemIDE>, reponses: map<string, string>, ageMois: int): (r: Scores)
    ensures |r| == |DomainCodes|
  {
    NiveauxRisque(Totaux(Tally(items, reponses)), CalculerSeuilsRisque(ageMois), ageMois)
  }

  /** The items `findBy(['testIDE' => $test, 'actif' => true])` returns. */
  function ActiveItems(test: Test): (r: seq<ItemIDE>)
    reads test
    ensures forall k :: 0 <= k < |r| ==> r[k] in test.items && r[k].actif
    ensures forall k :: 0 <= k < |test.items| && test.items[k].actif ==> test.items[k] in r
  {
    Filter(test.items, (i: ItemIDE) => i.actif)
  }

  /** ScoreCalculatorService::calculerScoresIDE. */
  method CalculerScoresIde(passation: Passation) returns (r: Result<Scores>)
    requires passation.prescription != null && passation.prescription.test != null
    requires passation.prescription.test.isIde && |passation.reponses| > 0 ==>
               passation.ageChronologiqueMois.Some?
    ensures !passation.prescription.test.isIde ==> r == Err(NotIdeTest)
    ensures passation.prescription.test.isIde && |passation.reponses| == 0 ==> r == Err(NoAnswers)
    ensures passation.prescription.test.isIde && |passation.reponses| > 0 ==>
              r == Ok(ScoresIde(ActiveItems(passation.prescription.test), passation.reponses,
                                passation.ageChronologiqueMois.value))
  {
    var test := passation.prescription.test;
    if !test.isIde {
      return Err(NotIdeTest);
    }
    var reponses := passation.reponses;
    if |reponses| == 0 {
      return Err(NoAnswers);
    }
    var items := ActiveItems(test);
    var grid := ScoreItems(items, reponses);
    var totaux := CalculerTotaux(grid);
    var age := passation.ageChronologiqueMois.value;
    var seuils := CalculerSeuilsRisque(age);
    var scores := DeterminerNiveauxRisque(totaux, seuils, age);
    return Ok(scores);
  }

  // ---------------------------------------------------------------------------
  // What the grid counts.

  function CellSelector(reponses: map<string, string>, code: string, p: string): ItemIDE -> bool {
    (i: ItemIDE) => Oui(reponses, i) && i.domaine == code && i.partie == p
  }

  function DgSelector(reponses: map<string, string>, p: string): ItemIDE -> bool {
    (i: ItemIDE) => Oui(reponses, i) && i.compteDg && i.partie == p
  }

  function DomainSelector(reponses: map<string, string>, code: string): ItemIDE -> bool {
    (i: ItemIDE) => Oui(reponses, i) && i.domaine == code && i.partie in PartCodes
  }

  function OutsideParts(reponses: map<string, string>): ItemIDE -> bool {
    (i: ItemIDE) => Oui(reponses, i) && i.domaine == Dg && i.partie !in PartCodes
  }

  function CompteDgSelector(reponses: map<string, string>): ItemIDE -> bool {
    (i: ItemIDE) => Oui(reponses, i) && i.compteDg
  }

  /** One step adds one to an existing cell of a domain row other than DG exactly
      when the cell's selector picks the item. */
  lemma CellStep(g: Grid, item: ItemIDE, reponses: map<string, string>, d: nat, p: string)
    requires |g| == |DomainCodes| && d < |DomainCodes| && d != DgIndex && Get(g[d], p).Some?
    ensures Get(Step(g, item, reponses)[d], p)
              == Some(Get(g[d], p).value + if CellSelector(reponses, DomainCodes[d], p)(item) then 1 else 0)
  {
    StepDomainGet(g, item, reponses, d, p);
  }

  /** One step adds to an existing DG cell one for a DG item and one for a
      compteDG item. */
  lemma DgStep(g: Grid, item: ItemIDE, reponses: map<string, string>, p: string)
    requires |g| == |DomainCodes| && Get(g[DgIndex], p).Some?
    ensures Get(Step(g, item, reponses)[DgIndex], p)
              == Some(Get(g[DgIndex], p).value
                      + (if CellSelector(reponses, Dg, p)(item) then 1 else 0)
                      + (if DgSelector(reponses, p)(item) then 1 else 0))
  {
    StepDgGet(g, item, reponses, p);
  }

  /** A catalogue domain's cell for a catalogue part counts the 'oui' items of that
      domain and part. */
  lemma {:induction false} CellCount(items: seq<ItemIDE>, reponses: map<string, string>, d: nat, p: string)
    requires d < |DomainCodes| && d != DgIndex && p in PartCodes
    ensures Get(Tally(items, reponses)[d], p) == Some(Count(items, CellSelector(reponses, DomainCodes[d], p)))
  {
    if items != [] {
      hide *;
      var prefix, last := items[..|items| - 1], items[|items| - 1];
      var f := CellSelector(reponses, DomainCodes[d], p);
      CellCount(prefix, reponses, d, p);
      TallyLast(items, reponses);
      CountLast(items, f);
      CellStep(Tally(prefix, reponses), last, reponses, d, p);
    }
  }

  /** A DG cell for a catalogue part counts the 'oui' DG items of that part plus the
      'oui' items flagged compteDG of that part, so a DG item flagged compteDG counts
      twice. */
  lemma {:induction false} DgCellCount(items: seq<ItemIDE>, reponses: map<string, string>, p: string)
    requires p in PartCodes
    ensures Get(Tally(items, reponses)[DgIndex], p)
              == Some(Count(items, CellSelector(reponses, Dg, p)) + Count(items, DgSelector(reponses, p)))
  {
    if items != [] {
      hide *;
      var prefix, last := items[..|items| - 1], items[|items| - 1];
      DgCellCount(prefix, reponses, p);
      TallyLast(items, reponses);
      CountLast(items, CellSelector(reponses, Dg, p));
      CountLast(items, DgSelector(reponses, p));
      DgStep(Tally(prefix, reponses), last, reponses, p);
    }
  }

  /** A catalogue domain other than DG totals the 'oui' items of that domain whose
      part is a catalogue part. */
  lemma {:induction false} DomainTotalCount(items: seq<ItemIDE>, reponses: map<string, string>, d: nat)
    requires d < |DomainCodes| && d != DgIndex
    ensures Sum(Tally(items, reponses)[d]) == Count(items, DomainSelector(reponses, DomainCodes[d]))
  {
    if items != [] {
      var prefix, last := items[..|items| - 1], items[|items| - 1];
      var f := DomainSelector(reponses, DomainCodes[d]);
      DomainTotalCount(prefix, reponses, d);
      var g := Tally(prefix, reponses);
      assert Tally(items, reponses) == Step(g, last, reponses);
      assert Count(items, f) == Count(prefix, f) + (if f(last) then 1 else 0);
      TallyShape(prefix, reponses, d, last.partie);
      StepDomainRow(g, last, reponses, d);
    }
  }

  /** Every item flagged compteDG and answered 'oui' adds one to DG, whatever its
      part; DG items add at most one more each. */
  lemma {:induction false} DgTotalBounds(items: seq<ItemIDE>, reponses: map<string, string>)
    ensures Count(items, CompteDgSelector(reponses)) <= Sum(Tally(items, reponses)[DgIndex])
    ensures Sum(Tally(items, reponses)[DgIndex])
              <= Count(items, CompteDgSelector(reponses)) + Count(items, DomainSelector(reponses, Dg))
                 + Count(items, OutsideParts(reponses))
  {
    if items != [] {
      var prefix, last := items[..|items| - 1], items[|items| - 1];
      var c, f, h := CompteDgSelector(reponses), DomainSelector(reponses, Dg), OutsideParts(reponses);
      DgTotalBounds(prefix, reponses);
      var g := Tally(prefix, reponses);
      assert Tally(items, reponses) == Step(g, last, reponses);
      assert Count(items, c) == Count(prefix, c) + (if c(last) then 1 else 0);
      assert Count(items, f) == Count(prefix, f) + (if f(last) then 1 else 0);
      assert Count(items, h) == Count(prefix, h) + (if h(last) then 1 else 0);
      StepDgRow(g, last, reponses);
    }
  }

  /** When every item belongs to a catalogue part, DG totals the 'oui' DG items plus
      the 'oui' items flagged compteDG. */
  lemma {:induction false} DgTotalCount(items: seq<ItemIDE>, reponses: map<string, string>)
    requires forall k :: 0 <= k < |items| ==> items[k].partie in PartCodes
    ensures Sum(Tally(items, reponses)[DgIndex])
              == Count(items, DomainSelector(reponses, Dg)) + Count(items, CompteDgSelector(reponses))
  {
    if items != [] {
      var prefix, last := items[..|items| - 1], items[|items| - 1];
      var c, f := CompteDgSelector(reponses), DomainSelector(reponses, Dg);
      DgTotalCount(prefix, reponses);
      var g := Tally(prefix, reponses);
      assert Tally(items, reponses) == Step(g, last, reponses);
      assert Count(items, c) == Count(prefix, c) + (if c(last) then 1 else 0);
      assert Count(items, f) == Count(prefix, f) + (if f(last) then 1 else 0);
      TallyShape(prefix, reponses, DgIndex, last.partie);
      StepDgRow(g, last, reponses);
    }
  }

  /** Cells are only ever created in the DG row, and only for the part of a 'oui'
      item flagged compteDG that lies outside the catalogue parts. */
  lemma {:induction false} ExtraDgParts(items: seq<ItemIDE>, reponses: map<string, string>, q: string)
    requires q !in PartCodes && Get(Tally(items, reponses)[DgIndex], q).Some?
    ensures exists k :: 0 <= k < |items| && CompteDgSelector(reponses)(items[k]) && items[k].partie == q
  {
    var prefix := items[..|items| - 1];
    StepDgGet(Tally(prefix, reponses), items[|items| - 1], reponses, q);
    if Get(Tally(prefix, reponses)[DgIndex], q).Some? {
      ExtraDgParts(prefix, reponses, q);
      var k :| 0 <= k < |prefix| && CompteDgSelector(reponses)(prefix[k]) && prefix[k].partie == q;
      assert items[k] == prefix[k];
    } else {
      assert CompteDgSelector(reponses)(items[|items| - 1]);
    }
  }

  /** Only answers exactly equal to 'oui' matter: answer maps that agree on which
      items are 'oui' give the same grid. */
  lemma {:induction false} OnlyOuiMatters(items: seq<ItemIDE>, r1: map<string, string>, r2: map<string, string>)
    requires forall k :: 0 <= k < |items| ==> (Oui(r1, items[k]) <==> Oui(r2, items[k]))
    ensures Tally(items, r1) == Tally(items, r2)
  {
    if items != [] {
      OnlyOuiMatters(items[..|items| - 1], r1, r2);
    }
  }

  /** With no 'oui' answer at all the grid stays at zero. */
  lemma {:induction false} NoOuiNoScore(items: seq<ItemIDE>, reponses: map<string, string>)
    requires forall k :: 0 <= k < |items| ==> !Oui(reponses, items[k])
    ensures Tally(items, reponses) == InitialGrid()
  {
    if items != [] {
      NoOuiNoScore(items[..|items| - 1], reponses);
    }
  }

  /** Each domain's score is the sum of its returned per-part breakdown, and every
      domain carries the same thresholds and age. */
  lemma ScoresShape(items: seq<ItemIDE>, reponses: map<string, string>, ageMois: int)
    ensures var r := ScoresIde(items, reponses, ageMois);
            var s := CalculerSeuilsRisque(ageMois);
            forall d :: 0 <= d < |r| ==>
              r[d].domaine == DomainCodes[d] && r[d].parties == Tally(items, reponses)[d]
              && r[d].score == Sum(r[d].parties)
              && r[d].seuilHr == s.hautRisque && r[d].seuilThr == s.tresHautRisque
              && r[d].ageChronologique == ageMois
              && r[d].niveau == CalculerNiveauRisque(r[d].score, ageMois, s)
  {
  }

  /** Turning more answers into 'oui' never lowers a domain's score nor worsens its
      tier, for every catalogue domain other than DG. */
  lemma MoreOuiNeverWorse(items: seq<ItemIDE>, r1: map<string, string>, r2: map<string, string>,
                          ageMois: int, d: nat)
    requires d < |DomainCodes| && d != DgIndex
    requires forall k :: 0 <= k < |items| && Oui(r1, items[k]) ==> Oui(r2, items[k])
    ensures ScoresIde(items, r1, ageMois)[d].score <= ScoresIde(items, r2, ageMois)[d].score
    ensures Severity(ScoresIde(items, r2, ageMois)[d].niveau) <= Severity(ScoresIde(items, r1, ageMois)[d].niveau)
  {
    DomainTotalCount(items, r1, d);
    DomainTotalCount(items, r2, d);
    CountMonotone(items, DomainSelector(r1, DomainCodes[d]), DomainSelector(r2, DomainCodes[d]));
    var s := CalculerSeuilsRisque(ageMois);
    NiveauRisqueMonotone(ScoresIde(items, r1, ageMois)[d].score, ScoresIde(items, r2, ageMois)[d].score, ageMois, s);
  }

  // ---------------------------------------------------------------------------
  // Interpretation (genererInterpretation and its helpers).

  /** `TestIDE::DOMAINES[$code]`: the name, or the empty string PHP interpolates
      for a missing key. */
  function CatalogueName(code: string): (r: string)
    ensures code in DomainCodes ==> r == NomDomaine(code)
    ensures code !in DomainCodes ==> r == []
  {
    if code in DomainCodes then NomDomaine(code) else []
  }

  /** ScoreCalculatorService::formaterAge: years and remaining months, or the whole
      number of months under a year. */
  function FormaterAge(mois: int): (r: string)
    ensures mois >= 12 ==> r == YearsMonths(mois / 12, mois % 12)
    ensures mois < 12 ==> r == Months(mois)
  {
    var annees := TDiv(mois, 12);
    var moisRestants := TMod(mois, 12);
    if annees > 0 then YearsMonths(annees, moisRestants) else Months(mois)
  }

  /** The three age formatters agree on every real age: the calculator's, the
      report's, and the patient's for the same calendar interval. */
  lemma AgeFormattersAgree(iv: Interval, p: Patient)
    requires IsNormalized(iv) && p.dateNaissance.Some?
    ensures var m := p.AgeEnMois(iv);
            FormaterAge(m) == FormatAgeDeveloppement(m) == p.AgeFormate(iv)
  {
    var m := p.AgeEnMois(iv);
    assert m / 12 == iv.y && m % 12 == iv.m;
  }

  /** The stored level of DG, None when DG is missing. */
  function DgNiveau(scores: Scores): Option<Risk> {
    match Lookup(scores, Dg)
    case None => None
    case Some(e) => Some(e.niveau)
  }

  function DgScore(scores: Scores): int {
    match Lookup(scores, Dg)
    case None => 0
    case Some(e) => e.score
  }

  /** The fixed order of the per-domain analysis; DG is reported separately. */
  const DomainesOrdonnes: seq<string> := ["SO", "AU", "MG", "MF", "LEX", "LCO", "LE", "NBRE"]

  function DomainLine(e: DomainScore): string {
    "• " + CatalogueName(e.domaine) + " : " + IntToString(e.score) + " points - " + NomNiveauRisque(Some(e.niveau))
  }

  /** The entries the per-domain analysis reports: one per code of `order` that
      the scores hold, DG excepted, in the order of `order`. */
  function AnalyseEntries(scores: Scores, order: seq<string>): (r: seq<DomainScore>)
    ensures |r| <= |order|
  {
    if order == [] then []
    else
      var code := order[|order| - 1];
      var entry := Lookup(scores, code);
      AnalyseEntries(scores, order[..|order| - 1])
        + (if entry.None? || code == Dg then [] else [entry.value])
  }

  lemma AnalyseEntriesSnoc(scores: Scores, order: seq<string>, k: nat)
    requires k < |order|
    ensures var entry := Lookup(scores, order[k]);
            AnalyseEntries(scores, order[..k + 1])
              == AnalyseEntries(scores, order[..k]) + (if entry.None? || order[k] == Dg then [] else [entry.value])
  {
    assert order[..k + 1][..k] == order[..k];
  }

  /** The analysis lines of some entries, one each. */
  function DomainLines(entries: seq<DomainScore>): seq<string> {
    seq(|entries|, k requires 0 <= k < |entries| => DomainLine(entries[k]))
  }

  lemma DomainLinesSnoc(entries: seq<DomainScore>, e: DomainScore)
    ensures DomainLines(entries + [e]) == DomainLines(entries) + [DomainLine(e)]
  {
  }

  function StrengthText(e: DomainScore): string {
    CatalogueName(e.domaine) + " : développement adapté à l'âge"
  }

  function WatchText(e: DomainScore): string {
    CatalogueName(e.domaine) + " : " + NomNiveauRisque(Some(e.niveau))
  }

  predicate IsStrength(e: DomainScore) { e.domaine != Dg && e.niveau == Faible }
  predicate IsWatch(e: DomainScore) { e.domaine != Dg && e.niveau in {Haut, TresHaut} }

  /** identifierPointsForts: one text per non-DG domain at low risk, in score
      order, and nothing else. */
  function PointsForts(scores: Scores): (r: seq<string>)
    ensures |r| == Count(scores, IsStrength)
    ensures forall j :: 0 <= j < |scores| && IsStrength(scores[j]) ==> StrengthText(scores[j]) in r
    ensures forall t :: t in r ==> exists j :: 0 <= j < |scores| && IsStrength(scores[j]) && t == StrengthText(scores[j])
  {
    FilterMapExact(scores, IsStrength, StrengthText);
    FilterMap(scores, IsStrength, StrengthText)
  }

  /** identifierPointsVigilance: one text per non-DG domain at high or very high
      risk, in score order, and nothing else. */
  function PointsVigilance(scores: Scores): (r: seq<string>)
    ensures |r| == Count(scores, IsWatch)
    ensures forall j :: 0 <= j < |scores| && IsWatch(scores[j]) ==> WatchText(scores[j]) in r
    ensures forall t :: t in r ==> exists j :: 0 <= j < |scores| && IsWatch(scores[j]) && t == WatchText(scores[j])
  {
    FilterMapExact(scores, IsWatch, WatchText);
    FilterMap(scores, IsWatch, WatchText)
  }

  method IdentifierPointsForts(scores: Scores) returns (r: seq<string>)
    ensures r == PointsForts(scores)
  {
    r := [];
    for k := 0 to |scores|
      invariant r == PointsForts(scores[..k])
    {
      FilterMapSnoc(scores, IsStrength, StrengthText, k);
      var e := scores[k];
      if e.domaine == Dg {
        continue;
      }
      if e.niveau == Faible {
        r := r + [StrengthText(e)];
      }
    }
    assert scores[..|scores|] == scores;
  }

  method IdentifierPointsVigilance(scores: Scores) returns (r: seq<string>)
    ensures r == PointsVigilance(scores)
  {
    r := [];
    for k := 0 to |scores|
      invariant r == PointsVigilance(scores[..k])
    {
      FilterMapSnoc(scores, IsWatch, WatchText, k);
      var e := scores[k];
      if e.domaine == Dg {
        continue;
      }
      if e.niveau == Haut || e.niveau == TresHaut {
        r := r + [WatchText(e)];
      }
    }
    assert scores[..|scores|] == scores;
  }

  /** genererRecommandations: one fixed text per tier, a generic one otherwise. The
      list of watch-points it also receives plays no part. */
  function Recommandation(niveau: Option<Risk>): string {
    match niveau
    case Some(TresHaut) => "Le niveau de développement global indique un très haut risque. Une évaluation orthophonique approfondie est fortement recommandée, ainsi qu'une prise en charge précoce."
    case Some(Haut) => "Le niveau de développement global indique un haut risque. Une surveillance étroite et une évaluation orthophonique sont recommandées."
    case Some(Modere) => "Le développement global présente quelques points de vigilance. Un suivi régulier et des activités de stimulation ciblées sont conseillés."
    case Some(Faible) => "Le développement global est adapté à l'âge. Continuer à stimuler l'enfant dans ses apprentissages quotidiens."
    case None => "Évaluation complémentaire recommandée pour préciser le niveau de développement."
  }

  function Bullets(points: seq<string>): (r: seq<string>)
    ensures |r| == |points|
    ensures forall k :: 0 <= k < |r| ==> r[k] == "• " + points[k]
  {
    seq(|points|, k requires 0 <= k < |points| => "• " + points[k])
  }

  /** A titled list followed by a blank line, or nothing when the list is empty. */
  function Section(title: string, points: seq<string>): (r: seq<string>)
    ensures points == [] <==> r == []
  {
    if points == [] then [] else [title] + Bullets(points) + [""]
  }

  function Header(scores: Scores, ageMois: int): seq<string> {
    [ "INTERPRÉTATION DES RÉSULTATS - TEST IDE",
      "Âge chronologique de l'enfant : " + FormaterAge(ageMois),
      "",
      "SCORE DE DÉVELOPPEMENT GÉNÉRAL (DG) : " + IntToString(DgScore(scores)),
      "Niveau de risque global : " + NomNiveauRisque(DgNiveau(scores)),
      "",
      "ANALYSE PAR DOMAINE :" ]
  }

  /** The lines of the interpretation, before they are joined with newlines. */
  function InterpretationLines(scores: Scores, ageMois: int): seq<string> {
    Header(scores, ageMois)
      + DomainLines(AnalyseEntries(scores, DomainesOrdonnes)) + [""]
      + Section("POINTS FORTS IDENTIFIÉS :", PointsForts(scores))
      + Section("POINTS DE VIGILANCE :", PointsVigilance(scores))
      + ["RECOMMANDATIONS :", Recommandation(DgNiveau(scores))]
  }

  /** `implode($sep, $lines)`. */
  function Join(lines: seq<string>, sep: string): string {
    if lines == [] then []
    else if |lines| == 1 then lines[0]
    else Join(lines[..|lines| - 1], sep) + sep + lines[|lines| - 1]
  }

  /** ScoreCalculatorService::genererInterpretation. */
  method GenererInterpretation(scores: Scores, ageMois: int) returns (text: string)
    ensures text == Join(InterpretationLines(scores, ageMois), "\n")
  {
    var lines := Header(scores, ageMois);
    var analyse := AnalyserDomaines(scores, DomainesOrdonnes);
    lines := lines + analyse;
    lines := lines + [""];
    var forts := IdentifierPointsForts(scores);
    var vigilance := IdentifierPointsVigilance(scores);
    lines := AppendSection(lines, "POINTS FORTS IDENTIFIÉS :", forts);
    lines := AppendSection(lines, "POINTS DE VIGILANCE :", vigilance);
    lines := lines + ["RECOMMANDATIONS :", Recommandation(DgNiveau(scores))];
    text := Join(lines, "\n");
  }

  /** The per-domain loop: one line for each code of `order` that the scores
      hold, DG excepted. */
  method AnalyserDomaines(scores: Scores, order: seq<string>) returns (analyse: seq<string>)
    ensures analyse == DomainLines(AnalyseEntries(scores, order))
  {
    analyse := [];
    for k := 0 to |order|
      invariant analyse == DomainLines(AnalyseEntries(scores, order[..k]))
    {
      var code := order[k];
      AnalyseEntriesSnoc(scores, order, k);
      var entry := Lookup(scores, code);
      if entry.None? || code == Dg {
        continue;
      }
      DomainLinesSnoc(AnalyseEntries(scores, order[..k]), entry.value);
      analyse := analyse + [DomainLine(entry.value)];
    }
    assert order[..|order|] == order;
  }

  /** Appends a titled bullet list and a blank line, when there is anything to list. */
  method AppendSection(lines: seq<string>, title: string, points: seq<string>) returns (r: seq<string>)
    ensures r == lines + Section(title, points)
  {
    r := lines;
    if points != [] {
      r := r + [title];
      for k := 0 to |points|
        invariant r == lines + [title] + Bullets(points[..k])
      {
        assert Bullets(points[..k + 1]) == Bullets(points[..k]) + ["• " + points[k]];
        r := r + ["• " + points[k]];
      }
      assert points[..|points|] == points;
      r := r + [""];
    }
  }

  /** With DG missing, the report reads a DG score of 0, an undetermined level and
      the generic recommendation. */
  lemma InterpretationWithoutDg(scores: Scores)
    requires forall k :: 0 <= k < |scores| ==> scores[k].domaine != Dg
    ensures DgScore(scores) == 0 && DgNiveau(scores).None?
    ensures Recommandation(DgNiveau(scores)) == Recommandation(None)
  {
  }

  /** The fixed analysis order is the catalogue order without DG. */
  lemma OrderedDomains()
    ensures DomainesOrdonnes == DomainCodes[..DgIndex]
  {
  }

  /** For scores keyed like the calculator's result (see ScoresShape), the
      analysis reports the eight domains other than DG, each exactly once, in the
      fixed order. */
  lemma AnalyseInOrder(r: Scores)
    requires |r| == |DomainCodes|
    requires forall d :: 0 <= d < |r| ==> r[d].domaine == DomainCodes[d]
    ensures AnalyseEntries(r, DomainesOrdonnes) == r[..DgIndex]
  {
    OrderedDomains();
    forall j | 0 <= j < DgIndex
      ensures DomainesOrdonnes[j] != Dg && Lookup(r, DomainesOrdonnes[j]) == Some(r[j])
    {
      LookupFirst(r, j);
      DomainCodeIndex(j);
      DomainCodeIndex(DgIndex);
    }
    AnalyseMatch(r, DomainesOrdonnes);
  }

  lemma LookupFirst(r: Scores, k: nat)
    requires |r| == |DomainCodes| && k < |r|
    requires forall d :: 0 <= d < |r| ==> r[d].domaine == DomainCodes[d]
    ensures Lookup(r, DomainCodes[k]) == Some(r[k])
  {
    DomainCodeIndex(k);
    assert DomainCodes[k] !in DomainCodes[..k];
    forall j | 0 <= j < k
      ensures r[j].domaine != DomainCodes[k]
    {
      assert DomainCodes[..k][j] == r[j].domaine;
    }
    LookupIndex(r, DomainCodes[k], k);
  }

  lemma {:induction false} LookupIndex(r: Scores, code: string, k: nat)
    requires k < |r| && r[k].domaine == code
    requires forall j :: 0 <= j < k ==> r[j].domaine != code
    ensures Lookup(r, code) == Some(r[k])
  {
    if k > 0 {
      LookupIndex(r[1..], code, k - 1);
    }
  }

  /** When every code of `order` is found at its own position in `r` and none is
      DG, the analysis reports the first |order| entries of `r`. */
  lemma {:induction false} AnalyseMatch(r: Scores, order: seq<string>)
    requires |order| <= |r|
    requires forall j :: 0 <= j < |order| ==> order[j] != Dg && Lookup(r, order[j]) == Some(r[j])
    ensures AnalyseEntries(r, order) == r[..|order|]
  {
    if order != [] {
      var n := |order|;
      AnalyseMatch(r, order[..n - 1]);
      assert r[..n] == r[..n - 1] + [r[n - 1]];
    }
  }

  // ---------------------------------------------------------------------------
  // Consistency check (validerCoherenceReponses).

  /** The findings of the consistency check, kept as values; `Texte` gives the
      sentence the service reports for each. */
  datatype Alerte =
    | PeuDeNon(non: int)
    | PeuDeOui(oui: int)
    | Incomplete(total: int, attendu: int)

  function Texte(a: Alerte): string {
    match a
    case PeuDeNon(non) =>
      "Très peu de réponses 'non' (" + IntToString(non) + "). Vérifier la compréhension des questions."
    case PeuDeOui(oui) =>
      "Très peu de réponses 'oui' (" + IntToString(oui) + "). Vérifier l'âge de l'enfant ou la compréhension des questions."
    case Incomplete(total, attendu) =>
      "Passation incomplète : " + IntToString(total) + " réponses sur " + IntToString(attendu) + " attendues."
  }

  datatype Coherence = Coherence(
    valide: bool, erreurs: seq<Alerte>, avertissements: seq<Alerte>,
    totalReponses: int, reponsesOui: int, reponsesNon: int, ratioOuiDixiemes: nat)

  /** The share of 'oui' answers in tenths of a percent: 1000 * oui / total rounded
      to the nearest integer with halves rounded up, as `round($ratioOui * 100, 1)`
      does on non-negative values; 0 when there is no answer. */
  function RatioOuiDixiemes(oui: nat, non: nat): (r: nat)
    ensures oui + non == 0 ==> r == 0
    ensures oui + non > 0 ==> 2 * (oui + non) * r <= 2000 * oui + (oui + non) < 2 * (oui + non) * (r + 1)
    ensures r <= 1000
  {
    if oui + non == 0 then 0
    else
      var t := oui + non;
      var q := (2000 * oui + t) / (2 * t);
      RoundedQuotient(2000 * oui + t, 2 * t, 1001);
      q
  }

  /** Division bounds used by RatioOuiDixiemes: `x / d` is the largest `q` with
      `d * q <= x`, and it stays below any `m` with `x < d * m`. */
  lemma RoundedQuotient(x: nat, d: nat, m: nat)
    requires d > 0 && x < d * m
    ensures d * (x / d) <= x < d * (x / d + 1)
    ensures x / d < m
  {
    var q := x / d;
    assert x == d * q + x % d;
  }

  /** The consistency verdict from the answer counts and, for an IDE test, the
      number of items applicable at the child's age. The ratio thresholds 0.95 and
      0.05 and the completeness factor 0.8 are read as exact decimals. */
  function CoherenceOf(oui: nat, non: nat, attendu: Option<nat>): (c: Coherence)
    ensures c.totalReponses == oui + non && c.reponsesOui == oui && c.reponsesNon == non
    ensures c.ratioOuiDixiemes == RatioOuiDixiemes(oui, non)
    ensures c.valide <==> c.erreurs == []
    ensures c.erreurs == [] || (attendu.Some? && c.erreurs == [Incomplete(oui + non, attendu.value)])
    ensures c.erreurs != [] <==> attendu.Some? && 10 * (oui + non) < 8 * attendu.value
    ensures c.avertissements == [] || c.avertissements == [PeuDeNon(non)] || c.avertissements == [PeuDeOui(oui)]
    ensures c.avertissements == [PeuDeNon(non)] <==> oui + non > 0 && 100 * oui > 95 * (oui + non)
    ensures c.avertissements == [PeuDeOui(oui)] <==> oui + non > 0 && 100 * oui < 5 * (oui + non)
  {
    var total := oui + non;
    var avertissements :=
      if total > 0 && 100 * oui > 95 * total then [PeuDeNon(non)]
      else if total > 0 && 100 * oui < 5 * total then [PeuDeOui(oui)]
      else [];
    var erreurs :=
      if attendu.Some? && 10 * total < 8 * attendu.value then [Incomplete(total, attendu.value)]
      else [];
    Coherence(erreurs == [], erreurs, avertissements, total, oui, non, RatioOuiDixiemes(oui, non))
  }

  /** A check never warns of too few 'non' and too few 'oui' at once, and a
      passation with no answer at all gets no warning. */
  lemma CoherenceWarningsExclusive(oui: nat, non: nat, attendu: Option<nat>)
    ensures |CoherenceOf(oui, non, attendu).avertissements| <= 1
    ensures oui + non == 0 ==> CoherenceOf(oui, non, attendu).avertissements == []
  {
  }

  /** The items `findByTestAndAge` returns: active and applicable at that age. */
  function ApplicableItems(test: Test, ageMois: int): (r: seq<ItemIDE>)
    reads test
    ensures forall k :: 0 <= k < |r| ==> r[k] in test.items && r[k].actif && r[k].IsApplicableAge(ageMois)
    ensures forall j :: 0 <= j < |test.items| && test.items[j].actif && test.items[j].IsApplicableAge(ageMois) ==> test.items[j] in r
  {
    Filter(test.items, (i: ItemIDE) => i.actif && i.IsApplicableAge(ageMois))
  }

  /** ScoreCalculatorService::validerCoherenceReponses. */
  method ValiderCoherenceReponses(passation: Passation) returns (c: Coherence)
    requires passation.prescription != null && passation.prescription.test != null
    requires passation.prescription.test.isIde ==> passation.ageChronologiqueMois.Some?
    ensures c == CoherenceOf(passation.NombreReponsesOui(), passation.NombreReponsesNon(),
                             if passation.prescription.test.isIde
                             then Some(|ApplicableItems(passation.prescription.test, passation.ageChronologiqueMois.value)|)
                             else None)
  {
    var oui := passation.NombreReponsesOui();
    var non := passation.NombreReponsesNon();
    var total := oui + non;
    var avertissements: seq<Alerte> := [];
    if total > 0 {
      if 100 * oui > 95 * total {
        avertissements := avertissements + [PeuDeNon(non)];
      } else if 100 * oui < 5 * total {
        avertissements := avertissements + [PeuDeOui(oui)];
      }
    }
    var erreurs: seq<Alerte> := [];
    var test := passation.prescription.test;
    if test.isIde {
      var attendu := |ApplicableItems(test, passation.ageChronologiqueMois.value)|;
      if 10 * total < 8 * attendu {
        erreurs := erreurs + [Incomplete(total, attendu)];
      }
    }
    var ratio := if total > 0 then RatioOuiDixiemes(oui, non) else 0;
    c := Coherence(erreurs == [], erreurs, avertissements, total, oui, non, ratio);
  }
}
