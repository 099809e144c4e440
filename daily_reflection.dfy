/** The daily-reflection panel: a three-field form (what was accomplished,
    blockers, a one-to-five star rating) shown until a reflection arrives,
    then the formatted reflection with a Clear button. */
module DailyReflection {
  import opened Wrappers
  import opened JsValue
  import opened TextFormat
  import AiSlice
  import AiController

  /** `dailyReflection?.reflection || dailyReflection?.data?.reflection`. */
  function ReflectionText(dr: Json): (r: Option<Json>)
    ensures TruthyOpt(Field(dr, "reflection")) ==> r == Field(dr, "reflection")
    ensures !TruthyOpt(Field(dr, "reflection")) ==> r == FieldOpt(Field(dr, "data"), "reflection")
    ensures TruthyOpt(r) ==> Truthy(dr)
  {
    if TruthyOpt(Field(dr, "reflection")) then Field(dr, "reflection")
    else FieldOpt(Field(dr, "data"), "reflection")
  }

  /** The request body the form posts: its own three field names. */
  function RequestBody(accomplishments: string, blockers: string, rating: int): (b: map<string, Json>)
    ensures b.Keys == {"accomplishments", "blockers", "rating"}
    ensures b["accomplishments"] == JStr(accomplishments) && b["blockers"] == JStr(blockers)
    ensures b["rating"] == JNum(rating)
  {
    map["accomplishments" := JStr(accomplishments), "blockers" := JStr(blockers), "rating" := JNum(rating)]
  }

  /** The server reads `completedToday` and `productivityRating`, which the
      form never sends: of the three answers only the blockers arrive. */
  lemma {:induction false} FormAnswersLost(accomplishments: string, blockers: string, rating: int)
    ensures AiController.ReflectionInputOf(RequestBody(accomplishments, blockers, rating))
         == AiController.ReflectionInput(None, Some(JStr(blockers)), None)
  {
  }

  /** The body under the names the server reads. */
  function IntendedRequestBody(accomplishments: string, blockers: string, rating: int): (b: map<string, Json>)
    ensures b.Keys == {"completedToday", "blockers", "productivityRating"}
  {
    map["completedToday" := JStr(accomplishments), "blockers" := JStr(blockers),
        "productivityRating" := JNum(rating)]
  }

  /** Under the server's names every answer reaches the reflection service. */
  lemma {:induction false} IntendedAnswersArrive(accomplishments: string, blockers: string, rating: int)
    ensures AiController.ReflectionInputOf(IntendedRequestBody(accomplishments, blockers, rating))
         == AiController.ReflectionInput(Some(JStr(accomplishments)), Some(JStr(blockers)), Some(JNum(rating)))
  {
  }

  /** Star `star` (1 to 5) is drawn filled when it is at most the rating. */
  function Stars(rating: int): (r: seq<bool>)
    ensures |r| == 5
    ensures forall i :: 0 <= i < 5 ==> (r[i] <==> i < rating)
  {
    seq(5, i => i + 1 <= rating)
  }

  function CountTrue(s: seq<bool>): (n: nat)
    ensures n <= |s|
  {
    if s == [] then 0 else (if s[0] then 1 else 0) + CountTrue(s[1..])
  }

  /** A rating from 1 to 5 fills exactly that many stars. */
  lemma {:induction false} FilledStarsMatchRating(rating: int)
    requires 1 <= rating <= 5
    ensures CountTrue(Stars(rating)) == rating
  {
    FilledFrom(rating, 0);
    assert Stars(rating)[0..] == Stars(rating);
  }

  lemma {:induction false} FilledFrom(rating: int, k: nat)
    requires 1 <= rating <= 5 && k <= 5
    ensures CountTrue(Stars(rating)[k..]) == if k < rating then rating - k else 0
    decreases 5 - k
  {
    var s := Stars(rating);
    if k < 5 {
      FilledFrom(rating, k + 1);
      assert s[k..][1..] == s[k + 1..];
    }
  }

  /** The panel: the form (with its submit button's disabled state and the
      stars), or the formatted reflection. */
  datatype View =
    | FormView(submitDisabled: bool, stars: seq<bool>)
    | ReflectionShown(rendered: Rendered)

  function Panel(dr: Json, accomplishments: string, rating: int, isLoading: bool): (r: View)
    ensures r.FormView? <==> !TruthyOpt(ReflectionText(dr))
    ensures r.FormView? ==> (r.submitDisabled <==> isLoading || Blank(accomplishments))
    ensures r.FormView? ==> r.stars == Stars(rating)
    ensures r.ReflectionShown? ==> r.rendered == FormatValue(ReflectionMarks, ReflectionText(dr))
    ensures r.ReflectionShown? ==> !r.rendered.NotRendered?
    ensures r.ReflectionShown? ==> (r.rendered.TypeError? <==> !ReflectionText(dr).value.JStr?)
  {
    if !TruthyOpt(ReflectionText(dr)) then FormView(isLoading || Blank(accomplishments), Stars(rating))
    else ReflectionShown(FormatValue(ReflectionMarks, ReflectionText(dr)))
  }

  /** A reply `{ reflection: s }` with a non-empty `s` is formatted as it
      stands, whatever its `data` holds. */
  lemma {:induction false} TopLevelReflectionShown(s: string, data: Json, accomplishments: string, rating: int, isLoading: bool)
    requires s != []
    ensures
      var dr := JObj(map["reflection" := JStr(s), "data" := data]);
      Panel(dr, accomplishments, rating, isLoading) == ReflectionShown(Blocks(Format(ReflectionMarks, s).value))
  {
  }

  /** The form's local state. */
  class ReflectionForm {
    var accomplishments: string
    var blockers: string
    var rating: int

    constructor ()
      ensures accomplishments == "" && blockers == "" && rating == 3
    {
      accomplishments := "";
      blockers := "";
      rating := 3;
    }

    method EditAccomplishments(v: string)
      modifies this
      ensures accomplishments == v && blockers == old(blockers) && rating == old(rating)
    {
      accomplishments := v;
    }

    method EditBlockers(v: string)
      modifies this
      ensures blockers == v && accomplishments == old(accomplishments) && rating == old(rating)
    {
      blockers := v;
    }

    /** A click on star `star`. */
    method Rate(star: int)
      requires 1 <= star <= 5
      modifies this
      ensures rating == star && accomplishments == old(accomplishments) && blockers == old(blockers)
      ensures CountTrue(Stars(rating)) == star
    {
      rating := star;
      FilledStarsMatchRating(star);
    }

    /** `handleSubmit`: the form state goes out unchanged as the request body. */
    method Submit() returns (body: map<string, Json>)
      ensures body == RequestBody(accomplishments, blockers, rating)
      ensures AiController.ReflectionInputOf(body).completedToday.None?
    {
      body := RequestBody(accomplishments, blockers, rating);
      FormAnswersLost(accomplishments, blockers, rating);
    }

    /** `handleClear`: the stored reflection is cleared and the form reset. */
    method Clear(ai: AiSlice.AiState)
      modifies this, ai
      ensures accomplishments == "" && blockers == "" && rating == 3
      ensures ai.SlotValue(AiSlice.ReflectionSlot) == JNull
      ensures forall s :: s != AiSlice.ReflectionSlot ==> ai.SlotValue(s) == old(ai.SlotValue(s))
      ensures ai.isLoading == old(ai.isLoading) && ai.isError == old(ai.isError)
      ensures ai.isSuccess == old(ai.isSuccess) && ai.message == old(ai.message)
    {
      ai.ClearSlot(AiSlice.ReflectionSlot);
      accomplishments := "";
      blockers := "";
      rating := 3;
    }
  }
}
