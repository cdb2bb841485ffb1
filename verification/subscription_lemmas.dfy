/** Properties of one click through the subscription flow: which requests
    it issues, in what order, and where the browser ends up. */
module SubscriptionLemmas {
  import opened JsValues
  import opened Subscription

  lemma {:induction false} PostCountAppend(a: seq<Action>, b: seq<Action>)
    ensures PostCount(a + b) == PostCount(a) + PostCount(b)
  {
    if a != [] {
      assert (a + b)[1..] == a[1..] + b;
      PostCountAppend(a[1..], b);
    } else {
      assert a + b == b;
    }
  }

  lemma {:induction false} ContinuationCountAppend(a: seq<Action>, b: seq<Action>)
    ensures ContinuationCount(a + b) == ContinuationCount(a) + ContinuationCount(b)
  {
    if a != [] {
      assert (a + b)[1..] == a[1..] + b;
      ContinuationCountAppend(a[1..], b);
    } else {
      assert a + b == b;
    }
  }

  /** A trace counts one request for each `Post` it holds. */
  lemma {:induction false} PostCountZero(t: seq<Action>)
    ensures PostCount(t) == 0 <==> forall i :: 0 <= i < |t| ==> !t[i].Post?
  {
    if t != [] {
      PostCountZero(t[1..]);
      assert forall i :: 1 <= i < |t| ==> t[i] == t[1..][i - 1];
    }
  }

  lemma {:induction false} ContinuationCountZero(t: seq<Action>)
    ensures ContinuationCount(t) == 0 <==> forall i :: 0 <= i < |t| ==> !t[i].CallContinuation?
  {
    if t != [] {
      ContinuationCountZero(t[1..]);
      assert forall i :: 1 <= i < |t| ==> t[i] == t[1..][i - 1];
    }
  }

  /** The mutation issues one request when the guard passes and none otherwise. */
  lemma MutationPostCount(planType: string, userId: Option<string>, email: string, outcome: HttpOutcome)
    ensures PostCount(RunMutation(planType, userId, email, outcome)) ==
      (if Truthy(userId) && email != "" then 1 else 0)
  {
    var t := RunMutation(planType, userId, email, outcome);
    assert t == [t[0]] + [t[1]] + t[2..];
    PostCountAppend([t[0]] + [t[1]], t[2..]);
    PostCountAppend([t[0]], [t[1]]);
    PostCountZero(t[2..]);
    assert forall i :: 0 <= i < |t[2..]| ==> t[2..][i] == t[i + 2];
  }

  lemma MutationHasNoContinuation(planType: string, userId: Option<string>, email: string, outcome: HttpOutcome)
    ensures ContinuationCount(RunMutation(planType, userId, email, outcome)) == 0
  {
    var t := RunMutation(planType, userId, email, outcome);
    ContinuationCountZero(t);
  }

  lemma ExpandSingle(a: Action, viewer: Option<ViewerUser>, outcome: HttpOutcome)
    ensures Expand([a], viewer, outcome) ==
      (if a.Subscribe? then [a] + RunMutation(a.planType, UserId(viewer), ViewerEmail(viewer), outcome) else [a])
  {
  }

  /** An anonymous viewer is sent to sign-up and nothing else happens. */
  lemma AnonymousGoesToSignUp(viewer: Option<ViewerUser>, planType: string, hasContinuation: bool, outcome: HttpOutcome)
    requires !Truthy(UserId(viewer))
    ensures Click(viewer, planType, hasContinuation, outcome) == [Navigate(SignUpPath)]
    ensures PostCount(Click(viewer, planType, hasContinuation, outcome)) == 0
  {
    ExpandSingle(Navigate(SignUpPath), viewer, outcome);
  }

  /** The free plan shows a notice, runs the continuation exactly once when
      one is supplied (never otherwise), and issues no request. */
  lemma FreePlanShortCircuits(viewer: Option<ViewerUser>, hasContinuation: bool, outcome: HttpOutcome)
    requires Truthy(UserId(viewer))
    ensures var t := Click(viewer, FreePlan, hasContinuation, outcome);
      && t == [Toast(Info, FreePlanNotice)] + (if hasContinuation then [CallContinuation] else [])
      && PostCount(t) == 0
      && ContinuationCount(t) == (if hasContinuation then 1 else 0)
  {
    var t := Click(viewer, FreePlan, hasContinuation, outcome);
    ExpandSingle(Toast(Info, FreePlanNotice), viewer, outcome);
    if hasContinuation {
      var h := [Toast(Info, FreePlanNotice), CallContinuation];
      assert h[1..] == [CallContinuation];
      ExpandSingle(CallContinuation, viewer, outcome);
      assert t == h;
      PostCountAppend([h[0]], [h[1]]);
      ContinuationCountAppend([h[0]], [h[1]]);
    } else {
      assert t == [Toast(Info, FreePlanNotice)];
    }
  }

  /** Any other label, for a signed-in viewer, starts exactly one mutation
      with the lower-cased label; it posts exactly when the viewer has an
      email, and the request carries the id, the lower-cased label and the
      email unchanged. */
  lemma PaidPlanStartsCheckout(viewer: Option<ViewerUser>, planType: string, hasContinuation: bool, outcome: HttpOutcome)
    requires Truthy(UserId(viewer)) && planType != FreePlan
    ensures var t := Click(viewer, planType, hasContinuation, outcome);
      && t[0] == Subscribe(ToLowerCase(planType))
      && ContinuationCount(t) == 0
      && PostCount(t) == (if ViewerEmail(viewer) != "" then 1 else 0)
      && (ViewerEmail(viewer) != "" ==>
            t[2] == Post(CheckoutEndpoint, CheckoutBody(UserId(viewer).value, ToLowerCase(planType), ViewerEmail(viewer))))
  {
    var a := Subscribe(ToLowerCase(planType));
    var m := RunMutation(ToLowerCase(planType), UserId(viewer), ViewerEmail(viewer), outcome);
    ExpandSingle(a, viewer, outcome);
    PostCountAppend([a], m);
    ContinuationCountAppend([a], m);
    MutationPostCount(ToLowerCase(planType), UserId(viewer), ViewerEmail(viewer), outcome);
    MutationHasNoContinuation(ToLowerCase(planType), UserId(viewer), ViewerEmail(viewer), outcome);
  }

  /** One click issues at most one checkout request, and it issues one
      exactly when the viewer is signed in, has an email and did not pick
      the free plan. */
  lemma AtMostOneCheckout(viewer: Option<ViewerUser>, planType: string, hasContinuation: bool, outcome: HttpOutcome)
    ensures PostCount(Click(viewer, planType, hasContinuation, outcome)) <= 1
    ensures PostCount(Click(viewer, planType, hasContinuation, outcome)) == 1 <==>
      Truthy(UserId(viewer)) && planType != FreePlan && ViewerEmail(viewer) != ""
  {
    if !Truthy(UserId(viewer)) {
      AnonymousGoesToSignUp(viewer, planType, hasContinuation, outcome);
    } else if planType == FreePlan {
      FreePlanShortCircuits(viewer, hasContinuation, outcome);
    } else {
      PaidPlanStartsCheckout(viewer, planType, hasContinuation, outcome);
    }
  }

  /** A signed-in viewer without an email gets the guard's error and no request. */
  lemma MissingEmailBlocksRequest(viewer: Option<ViewerUser>, planType: string, hasContinuation: bool, outcome: HttpOutcome)
    requires Truthy(UserId(viewer)) && planType != FreePlan && ViewerEmail(viewer) == ""
    ensures Click(viewer, planType, hasContinuation, outcome) ==
      [Subscribe(ToLowerCase(planType)), Toast(Loading, ProcessingNotice), Toast(Error, UserInfoMissing)]
  {
    ExpandSingle(Subscribe(ToLowerCase(planType)), viewer, outcome);
  }

  /** After a request the browser goes to exactly the URL the endpoint
      answered with, and a failed request ends in an error toast carrying
      the mapped message. */
  lemma CheckoutEndsAsAnswered(viewer: Option<ViewerUser>, planType: string, hasContinuation: bool, outcome: HttpOutcome)
    requires Truthy(UserId(viewer)) && planType != FreePlan && ViewerEmail(viewer) != ""
    ensures var t := Click(viewer, planType, hasContinuation, outcome);
      && (outcome.Answered? ==> t[|t| - 1] == Redirect(outcome.url))
      && (!outcome.Answered? ==> t[|t| - 1] == Toast(Error, CheckoutErrorMessage(outcome)))
  {
    ExpandSingle(Subscribe(ToLowerCase(planType)), viewer, outcome);
  }

  /** The free check compares the raw label: "Free" from a direct caller is
      not the free plan and starts a checkout for the plan "free". */
  lemma RawLabelFreeCheck(viewer: Option<ViewerUser>, outcome: HttpOutcome)
    requires Truthy(UserId(viewer)) && ViewerEmail(viewer) != ""
    ensures var t := Click(viewer, "Free", false, outcome);
      && PostCount(t) == 1
      && t[2] == Post(CheckoutEndpoint, CheckoutBody(UserId(viewer).value, FreePlan, ViewerEmail(viewer)))
  {
    assert ToLowerCase("Free") == FreePlan;
    PaidPlanStartsCheckout(viewer, "Free", false, outcome);
  }

  /** Through a pricing card the label is already lower-cased, so every
      spelling of "free" takes the free branch, and any other plan starts
      its mutation with the lower-cased name. */
  lemma PricingCardLowerCases(viewer: Option<ViewerUser>, planName: string, outcome: HttpOutcome)
    requires Truthy(UserId(viewer))
    ensures var t := PricingCardClick(viewer, planName, outcome);
      && (ToLowerCase(planName) == FreePlan ==> PostCount(t) == 0 && ContinuationCount(t) == 1)
      && (ToLowerCase(planName) != FreePlan ==> t[0] == Subscribe(ToLowerCase(planName)))
  {
    if ToLowerCase(planName) == FreePlan {
      FreePlanShortCircuits(viewer, true, outcome);
    } else {
      ToLowerCaseIdempotent(planName);
      PaidPlanStartsCheckout(viewer, ToLowerCase(planName), true, outcome);
    }
  }
}
