/** `App.tsx`: the analysis state machine (idle, analysing, shown result or error),
    the feedback flags, the signed-in user and the bounded report history. */
module App {
  import opened Types
  import opened Strings

  /** How many reports the history keeps. */
  const MaxHistory := 10

  const FailureMessage := "Failed to generate health report. Dr. Whiskers suggests checking your internet connection!"

  /** `[newItem, ...prev].slice(0, 10)`: the new report first, then the most recent
      earlier ones, in their order, up to ten in all. */
  function Prepended(item: HistoryItem, history: seq<HistoryItem>): (r: seq<HistoryItem>)
    ensures |r| == Min(MaxHistory, |history| + 1)
    ensures r[0] == item
    ensures r[1..] == history[..Min(MaxHistory - 1, |history|)]
  {
    ([item] + history)[..Min(MaxHistory, |history| + 1)]
  }

  function Reversed<T>(s: seq<T>): (r: seq<T>)
    ensures |r| == |s|
    ensures forall i :: 0 <= i < |s| ==> r[i] == s[|s| - 1 - i]
  {
    seq(|s|, i requires 0 <= i < |s| => s[|s| - 1 - i])
  }

  /** The history after one successful analysis per item, oldest item first. */
  function RecordAll(history: seq<HistoryItem>, items: seq<HistoryItem>): seq<HistoryItem>
    decreases |items|
  {
    if items == [] then history else RecordAll(Prepended(items[0], history), items[1..])
  }

  /** After any run of successful analyses the history holds the ten most recent
      reports, newest first, with the earlier history behind them. */
  lemma {:induction false} RecordAllKeepsNewest(history: seq<HistoryItem>, items: seq<HistoryItem>)
    requires |history| <= MaxHistory
    ensures RecordAll(history, items)
         == (Reversed(items) + history)[..Min(MaxHistory, |items| + |history|)]
    decreases |items|
  {
    if items != [] {
      var x, rest := items[0], items[1..];
      var h1 := Prepended(x, history);
      RecordAllKeepsNewest(h1, rest);
      var n := Min(MaxHistory, |items| + |history|);
      var lhs := (Reversed(rest) + h1)[..Min(MaxHistory, |rest| + |h1|)];
      var rhs := (Reversed(items) + history)[..n];
      assert |lhs| == n;
      forall i | 0 <= i < n ensures lhs[i] == rhs[i] {
        if i < |rest| {
          assert lhs[i] == Reversed(rest)[i] == rest[|rest| - 1 - i] == items[|items| - 1 - i];
        } else if i == |rest| {
          assert lhs[i] == h1[0] == x;
        } else {
          assert lhs[i] == h1[i - |rest|] == history[i - |rest| - 1];
        }
      }
    }
  }

  /** Eleven successful analyses from an empty history keep exactly the last ten,
      newest first. */
  lemma ElevenAnalyses(items: seq<HistoryItem>)
    requires |items| == 11
    ensures RecordAll([], items) == Reversed(items[1..])
  {
    RecordAllKeepsNewest([], items);
    assert Reversed(items) + [] == Reversed(items);
    assert Reversed(items)[..10] == Reversed(items[1..]);
  }

  /** The request `handleAnalysis` has in flight: the submitted profile and the user
      as it was when the form was submitted. */
  datatype Request = Request(data: UserHealthData, submittedBy: Option<AuthUser>)

  /** The history item's summary of its inputs: it names the age first, then the
      BMI to one decimal, and ends with the model's name. */
  function InputsSummary(data: UserHealthData, m: Metrics, fmt: NumberFormat): (s: string)
    ensures StartsWith(s, "Age " + fmt.show(data.age))
    ensures Contains(s, ", BMI " + fmt.fixed1(m.bmi) + ", ")
    ensures EndsWith(s, ModelLabel(data.mlModel))
  {
    var age, bmi := "Age " + fmt.show(data.age), ", BMI " + fmt.fixed1(m.bmi) + ", ";
    ContainsMiddle(age, bmi, ModelLabel(data.mlModel));
    age + bmi + ModelLabel(data.mlModel)
  }

  class AppState {
    var analysis: Option<RiskAnalysis>
    var isAnalyzing: bool
    var error: Option<string>
    var user: Option<AuthUser>
    var showAuthModal: bool
    var history: seq<HistoryItem>
    var showFeedbackForm: bool
    var feedbackGiven: bool
    var feedbackRating: int

    ghost predicate Valid()
      reads this
    {
      |history| <= MaxHistory
    }

    constructor ()
      ensures Valid()
      ensures analysis == None && !isAnalyzing && error == None
      ensures user == None && !showAuthModal && history == []
      ensures !showFeedbackForm && !feedbackGiven && feedbackRating == 0
    {
      analysis := None;
      isAnalyzing := false;
      error := None;
      user := None;
      showAuthModal := false;
      history := [];
      showFeedbackForm := false;
      feedbackGiven := false;
      feedbackRating := 0;
    }

    /** The synchronous part of `handleAnalysis`, up to the `await`. */
    method StartAnalysis(data: UserHealthData) returns (req: Request)
      requires Valid()
      modifies this
      ensures Valid()
      ensures isAnalyzing && error == None && !showFeedbackForm && !feedbackGiven
      ensures req == Request(data, user)
      ensures analysis == old(analysis) && user == old(user) && history == old(history)
      ensures showAuthModal == old(showAuthModal) && feedbackRating == old(feedbackRating)
    {
      isAnalyzing := true;
      error := None;
      showFeedbackForm := false;
      feedbackGiven := false;
      req := Request(data, user);
    }

    /** The rest of `handleAnalysis` when the service call returned `result`. The
        report goes into the history when a user was signed in at submission, and
        it is put in front of the history as it is now. */
    method CompleteSuccess(req: Request, result: RiskAnalysis, fmt: NumberFormat, id: string, timestamp: int)
      requires Valid()
      requires MetricsOf(result).Some?
      modifies this
      ensures Valid()
      ensures analysis == Some(result) && !isAnalyzing
      ensures req.submittedBy.Some? ==>
        history == Prepended(
          HistoryItem(id, timestamp, result, InputsSummary(req.data, MetricsOf(result).value, fmt)),
          old(history))
      ensures req.submittedBy.None? ==> history == old(history)
      ensures error == old(error) && user == old(user) && showAuthModal == old(showAuthModal)
      ensures showFeedbackForm == old(showFeedbackForm) && feedbackGiven == old(feedbackGiven)
      ensures feedbackRating == old(feedbackRating)
    {
      analysis := Some(result);
      if req.submittedBy.Some? {
        var item := HistoryItem(id, timestamp, result, InputsSummary(req.data, MetricsOf(result).value, fmt));
        history := Prepended(item, history);
      }
      isAnalyzing := false;
    }

    /** The `catch` and `finally` of `handleAnalysis`: a fixed message; the shown
        report and the history stay as they were. */
    method CompleteFailure()
      requires Valid()
      modifies this
      ensures Valid()
      ensures error == Some(FailureMessage) && !isAnalyzing
      ensures analysis == old(analysis) && history == old(history) && user == old(user)
      ensures showAuthModal == old(showAuthModal) && feedbackRating == old(feedbackRating)
      ensures showFeedbackForm == old(showFeedbackForm) && feedbackGiven == old(feedbackGiven)
    {
      error := Some(FailureMessage);
      isAnalyzing := false;
    }

    /** `handleFeedbackSubmit`: the rating and comment are only logged. */
    method SubmitFeedback(rating: int, comment: string)
      requires Valid()
      modifies this`feedbackGiven, this`showFeedbackForm
      ensures Valid()
      ensures feedbackGiven && !showFeedbackForm
    {
      feedbackGiven := true;
      showFeedbackForm := false;
    }

    /** "Rate this Analysis" opens the feedback form. */
    method OpenFeedbackForm()
      requires Valid()
      modifies this`showFeedbackForm
      ensures Valid() && showFeedbackForm
    {
      showFeedbackForm := true;
    }

    /** "Cancel" closes it without recording anything. */
    method CancelFeedback()
      requires Valid()
      modifies this`showFeedbackForm
      ensures Valid() && !showFeedbackForm
    {
      showFeedbackForm := false;
    }

    /** A star button sets the rating. */
    method RateStar(star: int)
      requires Valid()
      modifies this`feedbackRating
      ensures Valid() && feedbackRating == star
    {
      feedbackRating := star;
    }

    method OpenAuthModal()
      requires Valid()
      modifies this`showAuthModal
      ensures Valid() && showAuthModal
    {
      showAuthModal := true;
    }

    method CloseAuthModal()
      requires Valid()
      modifies this`showAuthModal
      ensures Valid() && !showAuthModal
    {
      showAuthModal := false;
    }

    /** `onLogin`: the user from the sign-in dialog becomes current; the history is
        left as it is. */
    method Login(u: AuthUser)
      requires Valid()
      modifies this`user, this`showAuthModal
      ensures Valid() && user == Some(u) && !showAuthModal
    {
      user := Some(u);
      showAuthModal := false;
    }

    /** `onLogout`: no user and no history. */
    method Logout()
      requires Valid()
      modifies this`user, this`history
      ensures Valid() && user == None && history == []
    {
      user := None;
      history := [];
    }

    /** `onClear`: the history is emptied; the user stays signed in. */
    method ClearHistory()
      requires Valid()
      modifies this`history
      ensures Valid() && history == []
    {
      history := [];
    }

    /** `onView`: show a report from the history. */
    method ViewItem(item: HistoryItem)
      requires Valid()
      modifies this`analysis
      ensures Valid() && analysis == Some(item.analysis)
    {
      analysis := Some(item.analysis);
    }
  }

  /** The `if (user)` test reads the user captured when the form was submitted, and
      the prepend works on the history as it is when the reply arrives. So a report
      requested while signed in is still recorded when the user signed out before
      the reply came: the history holds it although nobody is signed in. */
  method ScenarioLogoutWhileAnalyzing(
    u: AuthUser, data: UserHealthData, result: RiskAnalysis, fmt: NumberFormat, id: string, timestamp: int)
    returns (user: Option<AuthUser>, history: seq<HistoryItem>)
    requires MetricsOf(result).Some?
    ensures user == None
    ensures |history| == 1 && history[0].analysis == result
  {
    var app := new AppState();
    app.Login(u);
    var req := app.StartAnalysis(data);
    app.Logout();
    app.CompleteSuccess(req, result, fmt, id, timestamp);
    user, history := app.user, app.history;
  }
}
