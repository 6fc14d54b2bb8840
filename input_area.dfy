/** The chat input box: its length cap, its send guard, the send itself with
    its effects on the conversation store, and the canned reply that a timer
    adds one second later. */
module InputArea {
  import opened Wrappers
  import opened Text
  import Decimal
  import opened ChatStore

  /** Longest message the box accepts, in UTF-16 code units. */
  const MaxMessageLength: nat := 2000

  /** The text of the canned assistant reply. */
  const MockReplyText: string :=
    "Thank you for your message. This is a mock response. Backend integration will be implemented in the next phase."

  /** `handleSend`'s guard: the trimmed input is non-empty, the box is not
      disabled, and the trimmed input fits the cap. */
  predicate Accepts(disabled: bool, input: string) {
    Trim(input) != [] && !disabled && Utf16Length(Trim(input)) <= MaxMessageLength
  }

  /** What an accepted send puts in the store: non-empty, no surrounding
      whitespace, within the cap. */
  lemma AcceptedTextIsClean(disabled: bool, input: string)
    requires Accepts(disabled, input)
    ensures var t := Trim(input);
            t != [] && !IsJsSpace(t[0]) && !IsJsSpace(t[|t| - 1])
            && Utf16Length(t) <= MaxMessageLength && !AllSpace(input)
  {
    TrimEnds(input);
    TrimEmptyIff(input);
  }

  /** The Send button's `disabled` rule. */
  predicate SendDisabled(disabled: bool, input: string) {
    disabled || Trim(input) == [] || Utf16Length(input) > MaxMessageLength
  }

  /** An enabled Send button always leads to an accepted send. */
  lemma EnabledButtonSends(disabled: bool, input: string)
    ensures !SendDisabled(disabled, input) ==> Accepts(disabled, input)
  {
    TrimShortens(input);
  }

  /** While the input respects the cap, which `onChange` guarantees, the
      button is enabled exactly when a send would be accepted. */
  lemma EnabledIffAccepted(disabled: bool, input: string)
    requires Utf16Length(input) <= MaxMessageLength
    ensures !SendDisabled(disabled, input) <==> Accepts(disabled, input)
  {
    TrimShortens(input);
  }

  /** The counter next to the box: how many code units are left. */
  function RemainingChars(input: string): (r: int)
    ensures r >= 0 <==> Utf16Length(input) <= MaxMessageLength
    ensures r == MaxMessageLength <==> input == []
  {
    MaxMessageLength - Utf16Length(input)
  }

  /** The counter is shown once fewer than 100 code units are left. */
  function IsNearLimit(input: string): (r: bool)
    ensures r <==> Utf16Length(input) > MaxMessageLength - 100
  {
    RemainingChars(input) < 100
  }

  /** The user message for an accepted send, made at clock reading `now`. */
  function UserMessage(text: string, now: nat): (m: Message)
    ensures m.role == User && m.content == text && m.timestamp == now
    ensures m.id == "msg-" + Decimal.Show(now)
  {
    Message("msg-" + Decimal.Show(now), User, text, now)
  }

  /** The canned reply, made when the timer fires at clock reading `now`; its
      id uses `now + 1`. */
  function MockReply(now: nat): (m: Message)
    ensures m.role == Assistant && m.content == MockReplyText && m.timestamp == now
    ensures m.id == "msg-" + Decimal.Show(now + 1)
  {
    Message("msg-" + Decimal.Show(now + 1), Assistant, MockReplyText, now)
  }

  /** Two sends at different clock readings make messages with different ids. */
  lemma UserMessageIdsDiffer(a: string, b: string, t1: nat, t2: nat)
    requires t1 != t2
    ensures UserMessage(a, t1).id != UserMessage(b, t2).id
  {
    Decimal.ShowInjective(t1, t2);
    assert UserMessage(a, t1).id[4..] == Decimal.Show(t1);
    assert UserMessage(b, t2).id[4..] == Decimal.Show(t2);
  }

  /** The box's state. `pendingReplies` counts the timers `handleSend` has
      started and that have not fired yet. */
  class InputBox {
    const store: Store
    var input: string
    var pendingReplies: nat

    /** The cap that `onChange` keeps. */
    predicate Valid()
      reads this
    {
      Utf16Length(input) <= MaxMessageLength
    }

    constructor (store: Store)
      ensures this.store == store && input == [] && pendingReplies == 0 && Valid()
    {
      this.store := store;
      input := [];
      pendingReplies := 0;
    }

    /** `onChange`: a value over the cap is ignored. */
    method OnChange(value: string)
      requires Valid()
      modifies this
      ensures Valid() && pendingReplies == old(pendingReplies)
      ensures input == if Utf16Length(value) <= MaxMessageLength then value else old(input)
    {
      if Utf16Length(value) <= MaxMessageLength {
        input := value;
      }
    }

    /** `handleSend` at clock reading `now`. On acceptance it appends the user
        message, sets loading, hands the trimmed text to the parent (`sent`),
        clears the box and starts the reply timer; otherwise nothing changes. */
    method HandleSend(disabled: bool, now: nat) returns (sent: Option<string>)
      requires Valid()
      modifies this, store
      ensures Valid()
      ensures var t := Trim(old(input));
              if Accepts(disabled, old(input)) then
                && sent == Some(t)
                && store.messages == Appended(old(store.messages), UserMessage(t, now))
                && store.isLoading
                && input == []
                && pendingReplies == old(pendingReplies) + 1
              else
                && sent == None
                && store.messages == old(store.messages)
                && store.isLoading == old(store.isLoading)
                && input == old(input)
                && pendingReplies == old(pendingReplies)
      ensures store.error == old(store.error)
    {
      var trimmed := Trim(input);
      if trimmed == [] || disabled || Utf16Length(trimmed) > MaxMessageLength {
        return None;
      }
      store.AddMessage(UserMessage(trimmed, now));
      store.SetLoading(true);
      sent := Some(trimmed);
      input := [];
      pendingReplies := pendingReplies + 1;
    }

    /** The timer started by an accepted send fires at clock reading `now`:
        the canned reply is appended and loading ends. */
    method DeliverMockReply(now: nat)
      requires pendingReplies > 0
      modifies this, store
      ensures store.messages == Appended(old(store.messages), MockReply(now))
      ensures !store.isLoading && store.error == old(store.error)
      ensures pendingReplies == old(pendingReplies) - 1 && input == old(input)
    {
      store.AddMessage(MockReply(now));
      store.SetLoading(false);
      pendingReplies := pendingReplies - 1;
    }

    /** `handleKeyDown`: Enter without Shift suppresses the default action and
        sends; any other key, and Shift+Enter, does nothing. */
    method HandleKeyDown(key: string, shift: bool, disabled: bool, now: nat)
      returns (prevented: bool, sent: Option<string>)
      requires Valid()
      modifies this, store
      ensures Valid()
      ensures prevented <==> key == "Enter" && !shift
      ensures !prevented ==> sent == None && input == old(input)
                             && store.messages == old(store.messages)
                             && store.isLoading == old(store.isLoading)
                             && pendingReplies == old(pendingReplies)
      ensures prevented ==>
                var t := Trim(old(input));
                if Accepts(disabled, old(input)) then
                  && sent == Some(t)
                  && store.messages == Appended(old(store.messages), UserMessage(t, now))
                  && store.isLoading
                  && input == []
                  && pendingReplies == old(pendingReplies) + 1
                else
                  && sent == None
                  && store.messages == old(store.messages)
                  && store.isLoading == old(store.isLoading)
                  && input == old(input)
                  && pendingReplies == old(pendingReplies)
      ensures store.error == old(store.error)
    {
      prevented := key == "Enter" && !shift;
      sent := None;
      if prevented {
        sent := HandleSend(disabled, now);
      }
    }
  }

  /** One exchange as the page runs it: the user types, sends, and the timer
      fires; the store then holds the earlier messages followed by the two new
      ones in order, and is idle. */
  method SendThenReply(store: Store, text: string, t0: nat, t1: nat)
    requires Utf16Length(text) <= MaxMessageLength && Trim(text) != []
    modifies store
    ensures store.messages == old(store.messages) + [UserMessage(Trim(text), t0), MockReply(t1)]
    ensures !store.isLoading && store.error == old(store.error)
  {
    var box := new InputBox(store);
    box.OnChange(text);
    TrimShortens(text);
    var sent := box.HandleSend(false, t0);
    box.DeliverMockReply(t1);
  }
}
