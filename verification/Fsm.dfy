/** The delayed-event state machine: states, signals and the two FSM tables. */
module Fsm {
  import opened Support

  datatype State =
    | WaitingForInitialConnect
    | Connected
    | Disconnected
    | Aborted
    | Replaced

  datatype Signal =
    | ParticipantConnected
    | ParticipantLookupSuccessful
    | ParticipantDisconnectedIntentionally
    | ParticipantConnectionAborted
    | DelayedEventReset
    | DelayedEventTimedOut
    | DelayedEventNotFound
    | CsApiUrlNotFound
    | WaitingStateTimedOut
    | SfuNotAvailable
    | JobReplaced
    | SfuParticipantGone

  /** State x event to next state; None where the table has no row. */
  function Transition(s: State, e: Signal): Option<State> {
    match s
    case WaitingForInitialConnect => (
      match e
      case ParticipantConnected => Some(Connected)
      case ParticipantLookupSuccessful => Some(Connected)
      case ParticipantConnectionAborted => Some(Aborted)
      case WaitingStateTimedOut => Some(Disconnected)
      case JobReplaced => Some(Replaced)
      case _ => None)
    case Connected => (
      match e
      case ParticipantDisconnectedIntentionally => Some(Disconnected)
      case ParticipantConnectionAborted => Some(Disconnected)
      case DelayedEventTimedOut => Some(Aborted)
      case DelayedEventNotFound => Some(Aborted)
      case CsApiUrlNotFound => Some(Aborted)
      case SfuParticipantGone => Some(Disconnected)
      case JobReplaced => Some(Replaced)
      case _ => None)
    case Disconnected => if e == JobReplaced then Some(Replaced) else None
    case Aborted => if e == JobReplaced then Some(Replaced) else None
    case Replaced => None
  }

  /** The only (state, event) pair handled without a state change. */
  predicate IsInternal(s: State, e: Signal) {
    s == Connected && e == DelayedEventReset
  }

  /** How far along the lifecycle a state is; every transition climbs. */
  function Rank(s: State): nat {
    match s
    case WaitingForInitialConnect => 0
    case Connected => 1
    case Disconnected => 2
    case Aborted => 2
    case Replaced => 3
  }

  /** What the SFU webhook adapter can turn a webhook into. */
  datatype Webhook = Joined | Left(clientInitiated: bool) | Aborting(clientInitiated: bool) | Other

  function FromWebhook(w: Webhook): Option<Signal> {
    match w
    case Joined => Some(ParticipantConnected)
    case Left(ci) =>
      Some(if ci then ParticipantDisconnectedIntentionally else ParticipantConnectionAborted)
    case Aborting(ci) =>
      Some(if ci then ParticipantDisconnectedIntentionally else ParticipantConnectionAborted)
    case Other => None
  }

  /** The signals a webhook can carry into the system (see WebhookSignals). */
  predicate IsWebhookSignal(e: Signal) {
    || e == ParticipantConnected
    || e == ParticipantDisconnectedIntentionally
    || e == ParticipantConnectionAborted
  }

  /** The signals the handler loop forwards to a job; all others are dropped with a warning. */
  predicate IsRoutable(e: Signal) {
    || e == ParticipantConnected
    || e == ParticipantDisconnectedIntentionally
    || e == ParticipantConnectionAborted
    || e == SfuParticipantGone
  }

  /** IsWebhookSignal is exactly the range of the adapter, and the router lets all of it through. */
  lemma {:induction false} WebhookSignals(e: Signal)
    ensures IsWebhookSignal(e) <==> exists w :: FromWebhook(w) == Some(e)
    ensures IsWebhookSignal(e) ==> IsRoutable(e)
  {
    assert FromWebhook(Joined) == Some(ParticipantConnected);
    assert FromWebhook(Left(true)) == Some(ParticipantDisconnectedIntentionally);
    assert FromWebhook(Left(false)) == Some(ParticipantConnectionAborted);
  }

  /** Which webhook brings which signal: only leaving tells apart who ended the connection. */
  lemma {:induction false} WebhookGives(w: Webhook)
    ensures FromWebhook(w) == Some(ParticipantConnected) <==> w == Joined
    ensures FromWebhook(w) == Some(ParticipantDisconnectedIntentionally) <==> w == Left(true) || w == Aborting(true)
    ensures FromWebhook(w) == Some(ParticipantConnectionAborted) <==> w == Left(false) || w == Aborting(false)
    ensures FromWebhook(w) == None <==> w == Other
  {
  }

  lemma {:induction false} TransitionClimbs(s: State, e: Signal)
    requires Transition(s, e).Some?
    ensures Rank(Transition(s, e).value) > Rank(s)
    ensures !IsInternal(s, e)
  {
  }
}
