/** The named CSV fixtures that the stand-alone REPL's `get` command reads. */
module MockedJson {
  const EmptyCsv: seq<seq<string>> := []

  const EmptyRowCsv: seq<seq<string>> := [[]]

  const OneRowCsv: seq<seq<string>> := [["hiss", "purr", "meow"]]

  const OneColumnCsv: seq<seq<string>> := [["hiss"], ["purr"], ["meow"]]

  const EmptyStrCsv: seq<seq<string>> := [
    ["x", "y", "z", "boo"],
    ["a", "", "", "324"],
    ["", "", "", ""]
  ]

  const NonAlphCsv: seq<seq<string>> := [
    ["23[5]32", "234[", "732", "\t\n23423\t342     ;", ""],
    ["324", "[][;.", "230", "23.4';.'23", "2;3;.23]]]'.';;.    "]
  ]

  const SimpleCsv: seq<seq<string>> := [
    ["hiss", "purr", "meow"],
    ["purr", "hiss", "meow"]
  ]

  /** The fixtures by name. */
  const MockCsvs: map<string, seq<seq<string>>> := map[
    "emptyCSV" := EmptyCsv,
    "emptyRowCSV" := EmptyRowCsv,
    "oneRowCSV" := OneRowCsv,
    "oneColumnCSV" := OneColumnCsv,
    "emptyStrCSV" := EmptyStrCsv,
    "nonAlphCSV" := NonAlphCsv,
    "simpleCSV" := SimpleCsv
  ]

  /** Looking up a fixture by its name gives that fixture. */
  lemma FixtureLookup()
    ensures "emptyCSV" in MockCsvs && MockCsvs["emptyCSV"] == EmptyCsv
    ensures "oneRowCSV" in MockCsvs && MockCsvs["oneRowCSV"] == OneRowCsv
    ensures "randomCSV" !in MockCsvs
  {
  }
}
