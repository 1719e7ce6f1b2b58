/**
 * The sanity check both enrichment services apply to a found place: the
 * better of two fuzzy scores against the place's title must reach 80.
 * `fuzz.token_sort_ratio` is a parameter (`ratio`).
 */
module Sanity {
  import opened Py

  const Threshold: int := 80
  const NameField: string := "Name"
  const RestaurantField: string := "Nom_du_restaurant__c"

  /** The best score and the field that produced it. */
  datatype Match = Match(score: int, field: string)

  /** `max(name_score, restaurant_name_score)`, and the field it came from: a tie goes to Name. */
  function BestMatch(nameScore: int, restaurantScore: int): (m: Match)
    ensures m.score >= nameScore && m.score >= restaurantScore
    ensures m.field == NameField <==> nameScore >= restaurantScore
    ensures m.field == NameField || m.field == RestaurantField
    ensures m.field == NameField ==> m.score == nameScore
    ensures m.field == RestaurantField ==> m.score == restaurantScore
  {
    Match(if nameScore >= restaurantScore then nameScore else restaurantScore,
          if nameScore >= restaurantScore then NameField else RestaurantField)
  }

  /** The account's Name and restaurant name, each or "", scored against the result's Title or "". */
  function Score(ratio: (Value, Value) -> int, account: Dict, result: Dict): Match {
    var title := OrEmpty(Get(result, "Title"));
    BestMatch(ratio(OrEmpty(Get(account, NameField)), title), ratio(OrEmpty(Get(account, RestaurantField)), title))
  }

  /** `f"Best match: {match_score}% < 80%"` */
  function FailureMessage(score: int): string {
    "Best match: " + IntToString(score) + "% < 80%"
  }

  /** The check passes iff one of the two names scores at least 80. */
  lemma PassesIffOneNameMatches(nameScore: int, restaurantScore: int)
    ensures BestMatch(nameScore, restaurantScore).score >= Threshold <==> nameScore >= Threshold || restaurantScore >= Threshold
  {
  }
}
