/**
One WebSocket's job subscription on the server (backend/src/websocket/jobSubscription.ts):
the code between two awaits, as functions on the fields it reads and writes, and as the
methods of the two objects. A read of the database spans an await.
*/
module JobSubscription {
  import opened Wrappers
  import opened Tables

  /** The job record a read returns; its JSON text is one to one with it. */
  datatype View = View(status: Status, text: string)

  datatype Message =
    | JobUpdate(view: View)
    | Subscribed(job: JobId)
    | Unsubscribed
    | ErrorMessage(text: string)

  /** How an awaited findOwnedJob ends. */
  datatype Read = Found(view: View) | Missing | ReadFailed

  /** The fields of a subscription object; no previous payload is the empty text. */
  datatype Sub = Sub(
    jobId: JobId,
    timer: bool,
    isRefreshing: bool,
    previous: Option<View>,
    refreshRequested: bool)

  // ------------------------------------------------------- the code between awaits

  function AfterUpdate(sub: Sub, view: View): Sub {
    sub.(previous := Some(view), timer := sub.timer && !view.status.Terminal())
  }

  function UpdateMessages(sub: Sub, view: View): seq<Message> {
    if sub.previous == Some(view) then [] else [JobUpdate(view)]
  }

  function NewSubscription(job: JobId, view: View): Sub {
    Sub(job, !view.status.Terminal(), false, Some(view), false)
  }

  /** What clearSubscription leaves of the object it drops. */
  function Cleared(sub: Sub): Sub { sub.(timer := false) }

  /** Every subscribe or unsubscribe action outdates the lookups that still run. */
  function NextVersion(version: nat): nat { version + 1 }

  const UNSUBSCRIBED := [Message.Unsubscribed]

  /** What follows an awaited lookup: the object that replaces the current one, if any, and messages. */
  datatype LookedUp = LookedUp(replacement: Option<Sub>, messages: seq<Message>)

  function LookupResumed(job: JobId, newest: bool, read: Read): LookedUp {
    if read.ReadFailed? then LookedUp(None, [ErrorMessage("Failed to handle WebSocket message")])
    else if !newest then LookedUp(None, [])
    else if read.Missing? then LookedUp(None, [ErrorMessage("Job not found")])
    else LookedUp(Some(NewSubscription(job, read.view)), [Message.Subscribed(job), JobUpdate(read.view)])
  }

  /** refreshSubscription up to its first await; the flag says whether it starts a read. */
  function RefreshCalled(sub: Sub, current: bool): (Sub, bool) {
    if !current then (sub, false)
    else if sub.isRefreshing then (sub.(refreshRequested := true), false)
    else (sub.(isRefreshing := true, refreshRequested := false), true)
  }

  /** What follows an awaited read: new fields, whether the socket drops the subscription, messages, another read. */
  datatype Resumed = Resumed(sub: Sub, clears: bool, messages: seq<Message>, readsAgain: bool)

  function RefreshResumed(sub: Sub, current: bool, read: Read): Resumed {
    if read.ReadFailed? then
      Resumed(sub.(isRefreshing := false), false, [ErrorMessage("Failed to fetch job status")], false)
    else if !current then Resumed(sub.(isRefreshing := false), false, [], false)
    else if read.Missing? then
      Resumed(sub.(isRefreshing := false, timer := false), true, [ErrorMessage("Job not found")], false)
    else
      var updated := AfterUpdate(sub, read.view);
      if updated.refreshRequested
      then Resumed(updated.(refreshRequested := false), false, UpdateMessages(sub, read.view), true)
      else Resumed(updated.(isRefreshing := false), false, UpdateMessages(sub, read.view), false)
  }

  // ---------------------------------------------------------------- the objects

  class Subscription {
    const jobId: JobId
    var timer: bool
    var isRefreshing: bool
    var previous: Option<View>
    var refreshRequested: bool

    constructor (job: JobId)
      ensures State() == Sub(job, false, false, None, false)
    {
      jobId, timer, isRefreshing, previous, refreshRequested := job, false, false, None, false;
    }

    function State(): Sub
      reads this
    {
      Sub(jobId, timer, isRefreshing, previous, refreshRequested)
    }
  }

  class JobSocket {
    var isOpen: bool
    var subscriptionVersion: nat
    var subscription: Subscription?
    // What was handed to the network, oldest first.
    var outgoing: seq<Message>

    constructor ()
      ensures isOpen && subscriptionVersion == 0 && subscription == null && outgoing == []
    {
      isOpen, subscriptionVersion, subscription, outgoing := true, 0, null, [];
    }

    function Delivered(messages: seq<Message>): seq<Message>
      reads this
    {
      if isOpen then messages else []
    }

    method SendJson(message: Message)
      modifies this`outgoing
      ensures outgoing == old(outgoing) + Delivered([message])
    {
      if isOpen {
        outgoing := outgoing + [message];
      }
    }

    method ClearSubscription()
      modifies this`subscription, subscription
      ensures subscription == null
      ensures old(subscription) != null ==> old(subscription).State() == Cleared(old(subscription.State()))
    {
      if subscription != null {
        if subscription.timer {
          subscription.timer := false;
        }
        subscription := null;
      }
    }

    method SendJobUpdate(sub: Subscription, view: View)
      modifies this`outgoing, sub
      ensures sub.State() == AfterUpdate(old(sub.State()), view)
      ensures outgoing == old(outgoing) + Delivered(UpdateMessages(old(sub.State()), view))
    {
      if sub.previous != Some(view) {
        SendJson(JobUpdate(view));
        sub.previous := Some(view);
      }
      if view.status in {COMPLETED, FAILED, CANCELLED} && sub.timer {
        sub.timer := false;
      }
    }

    /** refreshSubscription from its call to its first await or return. */
    method RefreshStart(sub: Subscription) returns (startsRead: bool)
      modifies sub
      ensures (sub.State(), startsRead) == RefreshCalled(old(sub.State()), subscription == sub)
    {
      startsRead := false;
      if subscription != sub {
        return;
      }
      if sub.isRefreshing {
        sub.refreshRequested := true;
        return;
      }
      sub.isRefreshing := true;
      sub.refreshRequested := false;
      startsRead := true;
    }

    /** refreshSubscription from the end of an awaited read to the next await or to its return. */
    method RefreshContinue(sub: Subscription, read: Read) returns (startsRead: bool)
      modifies this, sub
      ensures var r := RefreshResumed(old(sub.State()), old(subscription) == sub, read);
        && sub.State() == r.sub && startsRead == r.readsAgain
        && outgoing == old(outgoing) + Delivered(r.messages)
        && subscription == (if r.clears then null else old(subscription))
      ensures isOpen == old(isOpen) && subscriptionVersion == old(subscriptionVersion)
    {
      startsRead := false;
      if read.ReadFailed? {
        SendJson(ErrorMessage("Failed to fetch job status"));
      } else if subscription != sub {
        // The socket watches another subscription object, or none.
      } else if read.Missing? {
        SendJson(ErrorMessage("Job not found"));
        ClearSubscription();
      } else {
        SendJobUpdate(sub, read.view);
        if sub.refreshRequested {
          sub.refreshRequested := false;
          return true;
        }
      }
      sub.isRefreshing := false;
    }

    /** subscribeToJob up to its await; the version identifies this action. */
    method SubscribeStart() returns (version: nat)
      modifies this`subscriptionVersion
      ensures version == subscriptionVersion == NextVersion(old(subscriptionVersion))
    {
      subscriptionVersion := subscriptionVersion + 1;
      version := subscriptionVersion;
    }

    /** subscribeToJob after its await, including the caller's catch. */
    method SubscribeContinue(job: JobId, version: nat, read: Read)
      modifies this, subscription
      ensures isOpen == old(isOpen) && subscriptionVersion == old(subscriptionVersion)
      ensures var l := LookupResumed(job, version == subscriptionVersion, read);
        && outgoing == old(outgoing) + Delivered(l.messages)
        && (l.replacement.None? ==>
              && subscription == old(subscription)
              && (subscription != null ==> subscription.State() == old(subscription.State())))
        && (l.replacement.Some? ==>
              && subscription != null && fresh(subscription) && subscription.State() == l.replacement.value
              && (old(subscription) != null ==> old(subscription).State() == Cleared(old(subscription.State()))))
    {
      if read.ReadFailed? {
        SendJson(ErrorMessage("Failed to handle WebSocket message"));
        return;
      }
      if subscriptionVersion != version {
        return;
      }
      if read.Missing? {
        SendJson(ErrorMessage("Job not found"));
        return;
      }
      ClearSubscription();
      var sub := new Subscription(job);
      subscription := sub;
      SendJson(Message.Subscribed(job));
      SendJobUpdate(sub, read.view);
      if read.view.status !in {COMPLETED, FAILED, CANCELLED} {
        sub.timer := true;
      }
    }

    /** The unsubscribe branch of handleClientMessage. */
    method HandleUnsubscribe()
      modifies this, subscription
      ensures subscription == null && subscriptionVersion == NextVersion(old(subscriptionVersion))
      ensures isOpen == old(isOpen) && outgoing == old(outgoing) + Delivered(UNSUBSCRIBED)
      ensures old(subscription) != null ==> old(subscription).State() == Cleared(old(subscription.State()))
    {
      subscriptionVersion := subscriptionVersion + 1;
      ClearSubscription();
      SendJson(Message.Unsubscribed);
    }

    /** One socket of notifyJobChanged's loop. */
    method NotifyJobChanged(job: JobId) returns (startsRead: bool)
      modifies subscription
      ensures subscription == null || old(subscription.jobId) != job ==> !startsRead
      ensures subscription != null ==>
        (subscription.State(), startsRead) ==
        if subscription.jobId == job then RefreshCalled(old(subscription.State()), true)
        else (old(subscription.State()), false)
    {
      startsRead := false;
      if subscription != null && subscription.jobId == job {
        startsRead := RefreshStart(subscription);
      }
    }

    /** The close event and the ping timeout both drop the subscription. */
    method HandleClose()
      modifies this, subscription
      ensures !isOpen && subscription == null && subscriptionVersion == old(subscriptionVersion)
      ensures outgoing == old(outgoing)
      ensures old(subscription) != null ==> old(subscription).State() == Cleared(old(subscription.State()))
    {
      isOpen := false;
      ClearSubscription();
    }
  }
}
