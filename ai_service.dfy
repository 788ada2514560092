/** The ingredient suggester of src/lib/services/ai.service.ts. It is a
    placeholder today: it echoes the seeds, appends two fixed names and
    reports a fixed duration. */
module AiService {
  /** `AiGenerateResponseDto`. */
  datatype AiResponse = AiResponse(suggestedIngredients: seq<string>, generationDurationMs: nat)

  const FirstPlaceholder: string := "Sugerowany Składnik 1"
  const SecondPlaceholder: string := "Sugerowany Składnik 2"
  const MockDurationMs: nat := 1500

  /** `generateIngredients`: a fresh list, the seeds first and in order,
      then the two placeholders. */
  function GenerateIngredients(seeds: seq<string>): (r: AiResponse)
    ensures |r.suggestedIngredients| == |seeds| + 2
    ensures r.suggestedIngredients[..|seeds|] == seeds
    ensures r.suggestedIngredients[|seeds|..] == [FirstPlaceholder, SecondPlaceholder]
    ensures r.generationDurationMs == 1500
  {
    AiResponse(seeds + [FirstPlaceholder, SecondPlaceholder], MockDurationMs)
  }

  /** Every seed survives at its own position, and nothing else but the two
      placeholders is added. */
  lemma SuggestionsKeepSeeds(seeds: seq<string>)
    ensures forall i :: 0 <= i < |seeds| ==> GenerateIngredients(seeds).suggestedIngredients[i] == seeds[i]
    ensures forall x :: x in GenerateIngredients(seeds).suggestedIngredients ==>
              x in seeds || x == FirstPlaceholder || x == SecondPlaceholder
  {
    var r := GenerateIngredients(seeds).suggestedIngredients;
    forall x | x in r ensures x in seeds || x == FirstPlaceholder || x == SecondPlaceholder {
      var i :| 0 <= i < |r| && r[i] == x;
      if i < |seeds| {
        assert r[..|seeds|][i] == x;
      } else {
        assert r[|seeds|..][i - |seeds|] == x;
      }
    }
  }

  /** An AI create body carries one to three seeds, so the suggestion has
      three to five items and never more than the documented ten. */
  lemma SuggestionSizeForCreate(seeds: seq<string>)
    requires 1 <= |seeds| <= 3
    ensures 3 <= |GenerateIngredients(seeds).suggestedIngredients| <= 5
    ensures |GenerateIngredients(seeds).suggestedIngredients| <= 10
  {
  }
}
