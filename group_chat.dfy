/** The group chat (src/components/GroupChat.tsx): polling the messages,
    which messages are drawn as the user's own, when the send button is
    enabled, and `handleSendMessage`, which posts the message and then pushes
    a notification to every device but the sender's. */
module GroupChat {
  import opened Wrappers
  import opened Seqs
  import opened Strings
  import AuthContext

  datatype Message = Message(id: string, message: string, sender: Option<string>, role: Option<string>,
                             timestamp: string, date: string)

  /** The messages drawn on the right: those whose sender is the current
      user's name, compared as `===` does, so with no name it is the
      messages that have no sender either. */
  predicate IsOwn(m: Message, name: Option<string>)
    ensures IsOwn(m, name) ==> (name.None? <==> m.sender.None?)
  {
    m.sender == name
  }

  /** A message is drawn as its own by exactly one name: the sender's, or
      no name at all for a message without a sender. */
  lemma OwnMessageHasOneOwner(m: Message, a: Option<string>, b: Option<string>)
    ensures IsOwn(m, a) && IsOwn(m, b) ==> a == b
    ensures IsOwn(m, None) <==> m.sender.None?
    ensures m.sender.Some? ==> IsOwn(m, Some(m.sender.value))
  {
  }

  /** The send button is disabled for a blank message or while the first
      load is in progress. */
  predicate SendDisabled(newMessage: string, isLoading: bool)
    ensures SendDisabled(newMessage, isLoading) <==> AllSpace(newMessage) || isLoading
  {
    Trim(newMessage) == "" || isLoading
  }

  /** Whenever the button is enabled, `handleSendMessage` gets past its
      guard; the guard stops a blank message however it is triggered. */
  lemma EnabledButtonSends(newMessage: string, isLoading: bool)
    ensures !SendDisabled(newMessage, isLoading) ==> Trim(newMessage) != ""
    ensures Trim(newMessage) == "" ==> SendDisabled(newMessage, isLoading)
  {
  }

  /** The tokens the push goes to: all but the sender's own device token,
      in the order the server listed them. */
  function PushRecipients(tokens: seq<string>, own: Option<string>): (r: seq<string>)
    ensures |r| <= |tokens|
    ensures forall k :: 0 <= k < |r| ==> r[k] in tokens && Some(r[k]) != own
    ensures forall k :: 0 <= k < |tokens| && Some(tokens[k]) != own ==> tokens[k] in r
  {
    Filter(tokens, (t: string) => Some(t) != own)
  }

  /** Dropping the sender's token from a list that does not hold it keeps
      the list, and the sender's token is dropped however often it occurs. */
  lemma PushRecipientsExact(tokens: seq<string>, own: Option<string>)
    ensures (forall k :: 0 <= k < |tokens| ==> Some(tokens[k]) != own) ==> PushRecipients(tokens, own) == tokens
    ensures own.Some? ==> own.value !in PushRecipients(tokens, own)
  {
    if forall k :: 0 <= k < |tokens| ==> Some(tokens[k]) != own {
      FilterKeepsAll(tokens, (t: string) => Some(t) != own);
    }
  }

  /** The recipients keep the order the server listed the tokens in: the
      list's halves give the two halves of the result. */
  lemma PushRecipientsAppend(a: seq<string>, b: seq<string>, own: Option<string>)
    ensures PushRecipients(a + b, own) == PushRecipients(a, own) + PushRecipients(b, own)
  {
    FilterAppend(a, b, (t: string) => Some(t) != own);
  }

  /** The requests `handleSendMessage` makes, in order. */
  datatype Request =
    | PostMessage(message: string, sender: Option<string>, role: Option<string>, timestamp: string, date: string)
    | GetUser(id: Option<string>)
    | GetNotifs
    | SendPush(tokens: seq<string>, title: string, body: string, sound: string)

  datatype Call = Call(request: Request, ok: bool)

  predicate CallOk(c: Call) { c.ok }

  function Name(user: Option<AuthContext.SessionUser>): Option<string> {
    if user.Some? then Some(user.value.username) else None
  }

  function Role(user: Option<AuthContext.SessionUser>): Option<string> {
    if user.Some? then user.value.role else None
  }

  function UserId(user: Option<AuthContext.SessionUser>): Option<string> {
    if user.Some? then Some(user.value.id) else None
  }

  /** The body of the push: the sender's name (`undefined` without one), a
      colon and the message. */
  function PushBody(name: Option<string>, text: string): (b: string)
    ensures var who := if name.Some? then name.value else "undefined";
      |b| == |who| + 2 + |text| && b[..|who|] == who && b[|who|..|who| + 2] == ": " && b[|who| + 2..] == text
  {
    (if name.Some? then name.value else "undefined") + ": " + text
  }

  /** The requests a send would make if each succeeded, with whether each
      does: the post, the sender's user record (for its `device_notif`), the
      token list, and the push when any token remains. */
  function SendCalls(text: string, user: Option<AuthContext.SessionUser>, chatTime: string, chatDate: string,
                     posted: Outcome<Message>, device: Outcome<Option<string>>, notifs: Outcome<seq<string>>,
                     pushOk: bool): (calls: seq<Call>)
    ensures 3 <= |calls| <= 4
    ensures calls[0].request == PostMessage(text, Name(user), Role(user), chatTime, chatDate)
    ensures calls[1].request == GetUser(UserId(user)) && calls[2].request == GetNotifs
    ensures calls[0].ok == posted.Ok? && calls[1].ok == device.Ok? && calls[2].ok == notifs.Ok?
    ensures |calls| == 4 <==> device.Ok? && notifs.Ok? && |PushRecipients(notifs.value, device.value)| > 0
    ensures |calls| == 4 ==> calls[3] == Call(SendPush(PushRecipients(notifs.value, device.value), "Air Guard Chat",
                                                       PushBody(Name(user), text), "default"), pushOk)
  {
    var first := [Call(PostMessage(text, Name(user), Role(user), chatTime, chatDate), posted.Ok?),
                  Call(GetUser(UserId(user)), device.Ok?),
                  Call(GetNotifs, notifs.Ok?)];
    if device.Ok? && notifs.Ok? && |PushRecipients(notifs.value, device.value)| > 0 then
      first + [Call(SendPush(PushRecipients(notifs.value, device.value), "Air Guard Chat",
                             PushBody(Name(user), text), "default"), pushOk)]
    else first
  }

  /** How a run of the sending steps ends: `sent` is the plan up to the
      step that failed, or the whole plan with `ok` when none did. */
  lemma SentThroughFirstFailure(plan: seq<Call>, sent: seq<Call>, ok: bool)
    requires 0 < |sent| <= |plan|
    requires sent == plan[..|sent|]
    requires forall k :: 0 <= k < |sent| - 1 ==> plan[k].ok
    requires |sent| < |plan| ==> !plan[|sent| - 1].ok && !ok
    requires |sent| == |plan| ==> (ok <==> plan[|sent| - 1].ok)
    ensures ThroughFirstFailure(plan, CallOk) == sent
    ensures AllOk(plan, CallOk) <==> ok
  {
    ThroughFirstFailurePrefix(plan, CallOk, |sent|);
  }

  /** The awaited steps of the `try` block of `handleSendMessage`: each
      request is made only after the one before it succeeded, and the push
      only when a token remains. Returns the requests made and whether the
      block ran to its end. */
  method RunSendSteps(text: string, user: Option<AuthContext.SessionUser>, chatTime: string, chatDate: string,
                      posted: Outcome<Message>, device: Outcome<Option<string>>,
                      notifs: Outcome<seq<string>>, pushOk: bool) returns (sent: seq<Call>, ok: bool)
    ensures sent == ThroughFirstFailure(SendCalls(text, user, chatTime, chatDate, posted, device, notifs, pushOk), CallOk)
    ensures ok <==> AllOk(SendCalls(text, user, chatTime, chatDate, posted, device, notifs, pushOk), CallOk)
  {
    var plan := SendCalls(text, user, chatTime, chatDate, posted, device, notifs, pushOk);
    sent := [plan[0]];
    ok := false;
    if posted.Ok? {
      sent := sent + [plan[1]];
      if device.Ok? {
        sent := sent + [plan[2]];
        if notifs.Ok? {
          var tokens := PushRecipients(notifs.value, device.value);
          if |tokens| > 0 {
            sent := sent + [plan[3]];
            ok := pushOk;
          } else {
            ok := true;
          }
        }
      }
    }
    SentThroughFirstFailure(plan, sent, ok);
  }

  /** The chat's state. */
  class Chat {
    var messages: seq<Message>
    var newMessage: string
    var isLoading: bool
    var sendLoading: bool
    var toasts: seq<string>
    var calls: seq<Call>

    constructor ()
      ensures messages == [] && newMessage == "" && isLoading && !sendLoading && toasts == [] && calls == []
    {
      messages, newMessage, isLoading, sendLoading, toasts, calls := [], "", true, false, [], [];
    }

    /** `fetchMessages`, run on mount and every second: the server's list
        replaces the one shown; a failure keeps it and raises a toast. Either
        way the first-load spinner goes. */
    method FetchMessages(response: Outcome<seq<Message>>)
      modifies this`messages, this`isLoading, this`toasts
      ensures !isLoading
      ensures response.Ok? ==> messages == response.value && toasts == old(toasts)
      ensures response.Fail? ==> messages == old(messages) && toasts == old(toasts) + ["Something went wrong..."]
    {
      if response.Ok? {
        messages := response.value;
      } else {
        toasts := toasts + ["Something went wrong..."];
      }
      isLoading := false;
    }

    /** The input's `onChange`. */
    method EditMessage(text: string)
      modifies this`newMessage
      ensures newMessage == text
    {
      newMessage := text;
    }

    /** `handleSendMessage`. A blank message does nothing; any other is
        sent. */
    method HandleSendMessage(user: Option<AuthContext.SessionUser>, chatTime: string, chatDate: string,
                             posted: Outcome<Message>, device: Outcome<Option<string>>,
                             notifs: Outcome<seq<string>>, pushOk: bool)
      modifies this`messages, this`newMessage, this`sendLoading, this`toasts, this`calls
      ensures Trim(old(newMessage)) == "" ==>
        && messages == old(messages) && newMessage == old(newMessage) && sendLoading == old(sendLoading)
        && toasts == old(toasts) && calls == old(calls)
      ensures Trim(old(newMessage)) != "" ==>
        var plan := SendCalls(old(newMessage), user, chatTime, chatDate, posted, device, notifs, pushOk);
        && calls == old(calls) + ThroughFirstFailure(plan, CallOk)
        && messages == old(messages) + (if posted.Ok? then [posted.value] else [])
        && !sendLoading
        && (AllOk(plan, CallOk) ==> newMessage == "" && toasts == old(toasts))
        && (!AllOk(plan, CallOk) ==> newMessage == old(newMessage) && toasts == old(toasts) + ["Something went wrong..."])
    {
      if Trim(newMessage) != "" {
        Send(user, chatTime, chatDate, posted, device, notifs, pushOk);
      }
    }

    /** The body of `handleSendMessage` past its guard: the requests run in
        order until one fails; the message the server returns is appended
        as soon as the post succeeds; the input is cleared only when every
        step succeeded, and a failure raises a toast. */
    method Send(user: Option<AuthContext.SessionUser>, chatTime: string, chatDate: string,
                posted: Outcome<Message>, device: Outcome<Option<string>>,
                notifs: Outcome<seq<string>>, pushOk: bool)
      modifies this`messages, this`newMessage, this`sendLoading, this`toasts, this`calls
      ensures var plan := SendCalls(old(newMessage), user, chatTime, chatDate, posted, device, notifs, pushOk);
        && calls == old(calls) + ThroughFirstFailure(plan, CallOk)
        && messages == old(messages) + (if posted.Ok? then [posted.value] else [])
        && !sendLoading
        && (AllOk(plan, CallOk) ==> newMessage == "" && toasts == old(toasts))
        && (!AllOk(plan, CallOk) ==> newMessage == old(newMessage) && toasts == old(toasts) + ["Something went wrong..."])
    {
      var text := newMessage;
      sendLoading := true;
      messages := messages + (if posted.Ok? then [posted.value] else []);
      var sent, ok := RunSendSteps(text, user, chatTime, chatDate, posted, device, notifs, pushOk);
      calls := calls + sent;
      if ok {
        newMessage := "";
      } else {
        toasts := toasts + ["Something went wrong..."];
      }
      sendLoading := false;
    }
  }
}
