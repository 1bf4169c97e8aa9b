/** The app's shared data classes (QuestionModel.kt, DashBoardModel.kt). */
module Model {
  import opened Wrappers

  /**
   * The Personal Happiness Index triple: Section A (remembered well-being),
   * Section B (experienced well-being) and their mean. Kotlin Doubles are
   * modelled as exact reals.
   */
  datatype PHIScore = PHIScore(rememberedWellBeing: real, experiencedWellBeing: real, combinedPHI: real)

  datatype User = User(name: string, email: string, profilePhotoUrl: Option<string>)
}
