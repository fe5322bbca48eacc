/** The analysis record that the capture screen writes into the shared
    single-slot store and the result screen reads back. */
module Analysis {
  import opened Wrappers

  /** A numeric amount reported by the analysis service. It is never
      computed with, only displayed next to a unit suffix. */
  type Amount = real

  /** Nutrition facts per portion; the unit of each field is implied by its name. */
  datatype NutritionFacts = NutritionFacts(
    calories: Amount,
    protein: Amount,
    carbs: Amount,
    fat: Amount,
    fiber: Amount,
    sugar: Amount,
    sodium: Amount,
    cholesterol: Amount
  )

  /** The `foodAnalysis` payload of a successful response. `image` is the
      content locator of the analysed photo; the capture flow overwrites it
      with the picked asset's URI before publishing the record. */
  datatype FoodAnalysis = FoodAnalysis(
    identifiedFood: string,
    portionSize: Amount,
    recognizedServingSize: Amount,
    nutritionFactsPerPortion: NutritionFacts,
    additionalNotes: seq<string>,
    image: Option<string>
  )

  /** The shared store holds the most recent analysis, or nothing. */
  type Store = Option<FoodAnalysis>

  /** The store is empty when the process starts. */
  const EmptyStore: Store := None
}
