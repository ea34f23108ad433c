/**
  Joke selection (app/humor.py, generate_joke) over a table from category to jokes,
  passed in instead of read from humor.json. `random.choice` is a nondeterministic
  pick: the contracts hold for every value it could return.
*/
module Humor {

  /** The reply when there is no joke of the requested category. */
  const Apology: string := "Извините, у меня нет шуток этого типа."

  /** The category that asks for a randomly drawn category. */
  const RandomCategory: string := "random"

  /** A joke (or the apology), or the IndexError `random.choice` raises on an empty key list. */
  datatype JokeOutcome = Joke(text: string) | NoCategories

  /** `choice in humor and humor[choice]`: the category exists and has at least one joke. */
  predicate HasJokes(humor: map<string, seq<string>>, category: string)
  {
    category in humor && humor[category] != []
  }

  /**
    generate_joke: "random" first draws one of the table's categories (and raises when
    there is none); a category with jokes yields one of them, any other the apology.
  */
  method GenerateJoke(humor: map<string, seq<string>>, choice: string) returns (r: JokeOutcome)
    ensures r.NoCategories? <==> choice == RandomCategory && humor == map[]
    ensures choice != RandomCategory ==>
      r.Joke? && if HasJokes(humor, choice) then r.text in humor[choice] else r.text == Apology
    ensures choice == RandomCategory && r.Joke? ==>
      exists category :: category in humor &&
        if humor[category] != [] then r.text in humor[category] else r.text == Apology
    ensures choice == RandomCategory && humor != map[] && (forall c :: c in humor ==> humor[c] != []) ==>
      r.Joke? && exists category :: category in humor && r.text in humor[category]
  {
    var category := choice;
    if category == RandomCategory {
      if humor == map[] {
        return NoCategories;
      }
      category :| category in humor;
    }
    if HasJokes(humor, category) {
      var i :| 0 <= i < |humor[category]|;
      r := Joke(humor[category][i]);
    } else {
      r := Joke(Apology);
    }
  }
}
