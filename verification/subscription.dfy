/** The client-side subscription flow of `useSubscription`: the routing
    decision of `handleSubscribe`, the mutation guard, the checkout request
    and its error mapping, and the redirect on success. Every effect (router
    navigation, toast, POST, continuation call, browser redirect) is an
    `Action` in the returned trace; the checkout endpoint's answer is an input. */
module Subscription {
  import opened JsValues

  /** One of the signed-in user's `emailAddresses`. */
  datatype EmailAddress = EmailAddress(emailAddress: Option<string>)

  /** The identity provider's view of the signed-in user. */
  datatype ViewerUser = ViewerUser(id: Option<string>, emailAddresses: Option<seq<EmailAddress>>)

  datatype ToastKind = Info | Loading | Success | Error

  /** The JSON body of `POST /api/check-out`. */
  datatype CheckoutBody = CheckoutBody(userId: string, planType: string, email: string)

  datatype Action =
    | Navigate(path: string)                     // client-side router push
    | Toast(kind: ToastKind, message: string)
    | CallContinuation                           // the caller's `onFreeClick`
    | Subscribe(planType: string)                // starts the mutation
    | Post(endpoint: string, body: CheckoutBody)
    | Redirect(url: string)                      // browser location change

  /** How the checkout request ends: a 2xx answer carrying `url`, an HTTP
      client error whose response body may carry `message`, or any other
      exception. */
  datatype HttpOutcome =
    | Answered(url: string)
    | HttpFailure(serverMessage: Option<string>)
    | OtherFailure

  /** `subscribeToPlan` either resolves with the checkout URL or rejects
      with an `Error` whose message is given. */
  datatype CheckoutResult = Resolved(url: string) | Rejected(message: string)

  const SignUpPath := "/sign-up"
  const CheckoutEndpoint := "/api/check-out"
  const FreePlan := "free"
  const FreePlanNotice := "You're already on the Free plan!"
  const ProcessingNotice := "Processing your subscription..."
  const RedirectNotice := "Redirecting to checkout!"
  const UserInfoMissing := "User information missing"
  const PaymentFailed := "Payment processing failed"
  const UnexpectedError := "An unexpected error occurred"

  /** `user?.id`. */
  function UserId(viewer: Option<ViewerUser>): Option<string> {
    match viewer
    case Some(u) => u.id
    case None => None
  }

  /** `user?.emailAddresses?.[0]?.emailAddress || ''`: the first listed
      address when it is usable, otherwise the empty string. */
  function ViewerEmail(viewer: Option<ViewerUser>): (email: string)
    ensures email != "" ==>
      && viewer.Some? && viewer.value.emailAddresses.Some?
      && |viewer.value.emailAddresses.value| > 0
      && viewer.value.emailAddresses.value[0].emailAddress == Some(email)
    ensures viewer.None? || viewer.value.emailAddresses.None? || viewer.value.emailAddresses.value == [] ==> email == ""
    ensures (&& viewer.Some? && viewer.value.emailAddresses.Some?
             && |viewer.value.emailAddresses.value| > 0
             && Truthy(viewer.value.emailAddresses.value[0].emailAddress)) ==>
      Some(email) == viewer.value.emailAddresses.value[0].emailAddress
  {
    var first :=
      match viewer
      case Some(ViewerUser(_, Some(addresses))) =>
        if |addresses| > 0 then addresses[0].emailAddress else None
      case _ => None;
    OrEmpty(first)
  }

  /** The error `subscribeToPlan` rethrows: the server's `message` when the
      HTTP client reports the failure and the message is usable, a fixed
      fallback for other HTTP client failures, another for anything else. */
  function CheckoutErrorMessage(outcome: HttpOutcome): (message: string)
    requires !outcome.Answered?
    ensures message != ""
    ensures outcome.HttpFailure? && Truthy(outcome.serverMessage) ==> Some(message) == outcome.serverMessage
    ensures outcome.HttpFailure? && !Truthy(outcome.serverMessage) ==> message == PaymentFailed
    ensures outcome.OtherFailure? ==> message == UnexpectedError
  {
    match outcome
    case HttpFailure(serverMessage) => Or(serverMessage, Some(PaymentFailed)).value
    case OtherFailure => UnexpectedError
  }

  /** `subscribeToPlan`: the response body's URL on success, the mapped
      error otherwise. */
  function SubscribeToPlan(outcome: HttpOutcome): (r: CheckoutResult)
    ensures r.Resolved? <==> outcome.Answered?
    ensures r.Resolved? ==> r.url == outcome.url
    ensures r.Rejected? ==> r.message != "" && r.message == CheckoutErrorMessage(outcome)
  {
    match outcome
    case Answered(url) => Resolved(url)
    case _ => Rejected(CheckoutErrorMessage(outcome))
  }

  /** The effects after `mutate(planType)`: the loading toast of `onMutate`,
      then the guard of `mutationFn` (no POST without a user id and an
      email), then the POST and `onSuccess` or `onError`. */
  function RunMutation(planType: string, userId: Option<string>, email: string, outcome: HttpOutcome): (t: seq<Action>)
    ensures |t| >= 2 && t[0] == Toast(Loading, ProcessingNotice)
    ensures (!Truthy(userId) || email == "") ==> t == [Toast(Loading, ProcessingNotice), Toast(Error, UserInfoMissing)]
    ensures Truthy(userId) && email != "" ==>
      t[1] == Post(CheckoutEndpoint, CheckoutBody(userId.value, planType, email))
    ensures forall i :: 1 < i < |t| ==> !t[i].Post?
    ensures forall i :: 0 <= i < |t| && t[i].Redirect? ==> i == |t| - 1 && t[1].Post? && outcome == Answered(t[i].url)
    ensures Truthy(userId) && email != "" ==>
      t[|t| - 1] == (if outcome.Answered? then Redirect(outcome.url) else Toast(Error, CheckoutErrorMessage(outcome)))
    ensures Truthy(userId) && email != "" && outcome.Answered? ==>
      t[2..] == [Toast(Success, RedirectNotice), Redirect(outcome.url)]
    ensures Truthy(userId) && email != "" && !outcome.Answered? ==>
      t[2..] == [Toast(Error, CheckoutErrorMessage(outcome))]
  {
    [Toast(Loading, ProcessingNotice)] +
    if !Truthy(userId) || email == "" then
      [Toast(Error, UserInfoMissing)]
    else
      [Post(CheckoutEndpoint, CheckoutBody(userId.value, planType, email))] +
      match SubscribeToPlan(outcome)
      case Resolved(url) => [Toast(Success, RedirectNotice), Redirect(url)]
      case Rejected(message) => [Toast(Error, message)]
  }

  /** `handleSubscribe(planType, onFreeClick)`: sign-up for an anonymous
      viewer; for the raw label "free" a notice and the continuation (when
      one is supplied); otherwise one subscribe call with the lower-cased label. */
  function HandleSubscribe(viewer: Option<ViewerUser>, planType: string, hasContinuation: bool): (t: seq<Action>)
    ensures forall a :: a in t ==> !a.Post? && !a.Redirect?
    ensures Navigate(SignUpPath) in t <==> !Truthy(UserId(viewer))
    ensures (exists a :: a in t && a.Subscribe?) <==> Truthy(UserId(viewer)) && planType != FreePlan
    ensures forall a :: a in t && a.Subscribe? ==> a.planType == ToLowerCase(planType)
    ensures CallContinuation in t <==> Truthy(UserId(viewer)) && planType == FreePlan && hasContinuation
    ensures Toast(Info, FreePlanNotice) in t <==> Truthy(UserId(viewer)) && planType == FreePlan
  {
    if !Truthy(UserId(viewer)) then
      [Navigate(SignUpPath)]
    else if planType == FreePlan then
      [Toast(Info, FreePlanNotice)] + (if hasContinuation then [CallContinuation] else [])
    else
      var t := [Subscribe(ToLowerCase(planType))];
      assert t[0] in t;
      t
  }

  /** The whole trace of one click: `handleSubscribe`'s actions, with each
      subscribe call followed by the effects of the mutation it starts. */
  function Expand(t: seq<Action>, viewer: Option<ViewerUser>, outcome: HttpOutcome): seq<Action>
  {
    if t == [] then []
    else
      (match t[0]
       case Subscribe(planType) =>
         [t[0]] + RunMutation(planType, UserId(viewer), ViewerEmail(viewer), outcome)
       case _ => [t[0]])
      + Expand(t[1..], viewer, outcome)
  }

  function Click(viewer: Option<ViewerUser>, planType: string, hasContinuation: bool, outcome: HttpOutcome): seq<Action>
  {
    Expand(HandleSubscribe(viewer, planType, hasContinuation), viewer, outcome)
  }

  /** A click on a pricing card of the subscription page: the card hands
      over the plan's name lower-cased, and the page always supplies a
      continuation (which opens the plan form). */
  function PricingCardClick(viewer: Option<ViewerUser>, planName: string, outcome: HttpOutcome): seq<Action>
  {
    Click(viewer, ToLowerCase(planName), true, outcome)
  }

  /** The number of checkout requests in a trace. */
  function PostCount(t: seq<Action>): nat {
    if t == [] then 0 else (if t[0].Post? then 1 else 0) + PostCount(t[1..])
  }

  /** The number of continuation calls in a trace. */
  function ContinuationCount(t: seq<Action>): nat {
    if t == [] then 0 else (if t[0].CallContinuation? then 1 else 0) + ContinuationCount(t[1..])
  }
}
