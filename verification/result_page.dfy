/** The result screen's read contract on the shared store (`Page` in
    app/result.tsx): nothing when the store is empty, otherwise the photo,
    the food name and three sections of labelled lines.

    Amounts stay opaque: a displayed value is modelled as the amount together
    with the unit suffix written right after it. `ReadPage` recovers the
    analysis from a page, so `ReadPageRender` shows that the page displays
    every field of the record, each under its own label. */
module ResultPage {
  import opened Wrappers
  import opened Analysis

  /** A displayed amount and its unit suffix ("" when there is none). */
  datatype Cell = Cell(amount: Amount, unit: string)

  datatype Line =
    | InfoRow(name: string, cell: Cell)
    | NutritionItem(name: string, cell: Cell)
    | Bullet(text: string)

  /** A collapsible section: its title and the lines it holds. */
  datatype Section = Section(title: string, lines: seq<Line>)

  datatype Page = Page(imageUri: Option<string>, foodName: string, sections: seq<Section>)

  const PortionTitle: string := "Portion Information"
  const NutritionTitle: string := "Nutrition Facts"
  const NotesTitle: string := "Additional Notes"

  const PortionLabel: string := "Portion Size:"
  const ServingLabel: string := "Serving Size:"

  /** The bullet and space written before each note. */
  const BulletPrefix: string := "• "

  const NutritionLabels: seq<string> :=
    ["Calories", "Protein", "Carbs", "Fat", "Fiber", "Sugar", "Sodium", "Cholesterol"]

  function PortionLines(a: FoodAnalysis): seq<Line> {
    [InfoRow(PortionLabel, Cell(a.portionSize, "g")),
     InfoRow(ServingLabel, Cell(a.recognizedServingSize, "g"))]
  }

  function NutritionLines(n: NutritionFacts): seq<Line> {
    [NutritionItem("Calories", Cell(n.calories, "")),
     NutritionItem("Protein", Cell(n.protein, "g")),
     NutritionItem("Carbs", Cell(n.carbs, "g")),
     NutritionItem("Fat", Cell(n.fat, "g")),
     NutritionItem("Fiber", Cell(n.fiber, "g")),
     NutritionItem("Sugar", Cell(n.sugar, "g")),
     NutritionItem("Sodium", Cell(n.sodium, "mg")),
     NutritionItem("Cholesterol", Cell(n.cholesterol, "mg"))]
  }

  /** One bullet line per note, in the notes' order. */
  function NoteLines(notes: seq<string>): (r: seq<Line>)
    ensures |r| == |notes|
    ensures forall i :: 0 <= i < |r| ==> r[i] == Bullet(BulletPrefix + notes[i])
  {
    if notes == [] then [] else [Bullet(BulletPrefix + notes[0])] + NoteLines(notes[1..])
  }

  /** What the result screen renders for the store's content. */
  function Render(store: Store): (r: Option<Page>)
    ensures r.None? <==> store.None?
    ensures r.Some? ==> |r.value.sections| == 3
  {
    match store
    case None => None
    case Some(a) =>
      Some(Page(a.image, a.identifiedFood,
                [Section(PortionTitle, PortionLines(a)),
                 Section(NutritionTitle, NutritionLines(a.nutritionFactsPerPortion)),
                 Section(NotesTitle, NoteLines(a.additionalNotes))]))
  }

  /** The unit rule: energy has no suffix, sodium and cholesterol are in
      milligrams, every other nutrient in grams. */
  function UnitFor(name: string): string {
    if name == "Calories" then ""
    else if name == "Sodium" || name == "Cholesterol" then "mg"
    else "g"
  }

  /** The nutrition grid lists its eight tiles in a fixed order, each with the
      unit the rule gives its label; both portion rows are in grams. */
  lemma NutritionLayout(a: FoodAnalysis)
    ensures var ls := NutritionLines(a.nutritionFactsPerPortion);
            && |ls| == |NutritionLabels|
            && forall i :: 0 <= i < |ls| ==>
                 && ls[i].NutritionItem?
                 && ls[i].name == NutritionLabels[i]
                 && ls[i].cell.unit == UnitFor(NutritionLabels[i])
    ensures forall l :: l in PortionLines(a) ==> l.InfoRow? && l.cell.unit == "g"
  {
  }

  /** Reads the nutrition facts back from the grid. */
  function ReadNutrition(ls: seq<Line>): Option<NutritionFacts> {
    if && |ls| == |NutritionLabels|
       && forall i :: 0 <= i < |ls| ==>
            ls[i].NutritionItem? && ls[i].name == NutritionLabels[i] && ls[i].cell.unit == UnitFor(NutritionLabels[i])
    then Some(NutritionFacts(ls[0].cell.amount, ls[1].cell.amount, ls[2].cell.amount, ls[3].cell.amount,
                             ls[4].cell.amount, ls[5].cell.amount, ls[6].cell.amount, ls[7].cell.amount))
    else None
  }

  /** Reads the notes back from the bullet lines. */
  function ReadNotes(ls: seq<Line>): Option<seq<string>>
    decreases |ls|
  {
    if ls == [] then Some([])
    else if ls[0].Bullet? && |BulletPrefix| <= |ls[0].text| && ls[0].text[..|BulletPrefix|] == BulletPrefix then
      match ReadNotes(ls[1..])
      case None => None
      case Some(rest) => Some([ls[0].text[|BulletPrefix|..]] + rest)
    else None
  }

  /** Reads an analysis back from a rendered page. */
  function ReadPage(p: Page): Option<FoodAnalysis> {
    if |p.sections| != 3
       || p.sections[0].title != PortionTitle
       || p.sections[1].title != NutritionTitle
       || p.sections[2].title != NotesTitle
    then None
    else
      var portion := p.sections[0].lines;
      if |portion| != 2
         || !portion[0].InfoRow? || portion[0] != InfoRow(PortionLabel, Cell(portion[0].cell.amount, "g"))
         || !portion[1].InfoRow? || portion[1] != InfoRow(ServingLabel, Cell(portion[1].cell.amount, "g"))
      then None
      else
        match (ReadNutrition(p.sections[1].lines), ReadNotes(p.sections[2].lines))
        case (Some(n), Some(notes)) =>
          Some(FoodAnalysis(p.foodName, portion[0].cell.amount, portion[1].cell.amount, n, notes, p.imageUri))
        case _ => None
  }

  lemma {:induction false} ReadNoteLines(notes: seq<string>)
    ensures ReadNotes(NoteLines(notes)) == Some(notes)
    decreases |notes|
  {
    if notes != [] {
      var ls := NoteLines(notes);
      assert ls[1..] == NoteLines(notes[1..]);
      assert ls[0].text[..|BulletPrefix|] == BulletPrefix;
      assert ls[0].text[|BulletPrefix|..] == notes[0];
      ReadNoteLines(notes[1..]);
      assert [notes[0]] + notes[1..] == notes;
    }
  }

  /** The page of a stored analysis shows every field of it: the analysis
      can be read back from the page unchanged. */
  lemma ReadPageRender(a: FoodAnalysis)
    ensures Render(Some(a)).Some? && ReadPage(Render(Some(a)).value) == Some(a)
  {
    ReadNoteLines(a.additionalNotes);
    var n := a.nutritionFactsPerPortion;
    assert ReadNutrition(NutritionLines(n)) == Some(n);
  }
}
