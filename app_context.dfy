/**
 * The client-side conversation store of the kiosk front end: the state the
 * application provider holds (the conversation list, the message being typed,
 * who is speaking, the recognition status and the feedback form) and the four
 * transitions the screens call on it.
 *
 * Each transition replaces one state field with a value computed from the old
 * one. Those values are given here by pure functions (Appended, Edited,
 * Toggled), and the properties the store promises are lemmas about them.
 */
module AppContext {

  /** The two user types the screens know: a bank clerk or a deaf customer. */
  const Staff: string := "staff"
  const Customer: string := "customer"

  /** The initial recognition status. */
  const Idle: string := "idle"

  /**
   * One conversation entry. The id is the millisecond clock reading taken when
   * the message was added, so two messages added within the same millisecond
   * share an id; nothing here assumes ids are unique.
   */
  datatype Message = Message(id: int, text: string, sender: string, timestamp: string)

  /** The feedback form: a satisfaction score and a free-text comment. */
  datatype Feedback = Feedback(satisfaction: int, comment: string)

  /** The state fields other than the conversation list. */
  datatype Settings = Settings(currentMessage: string, userType: string,
                               recognitionStatus: string, feedback: Feedback)

  // ---------------------------------------------------------------------------
  // Pure transition functions

  /** The list after one message has been added at its end. */
  function Appended(prev: seq<Message>, m: Message): (r: seq<Message>)
    ensures |r| == |prev| + 1
    ensures r[|prev|] == m
    ensures r[..|prev|] == prev
  {
    prev + [m]
  }

  /** One element as the edit's mapping callback leaves it. */
  function Retexted(m: Message, id: int, newText: string): (r: Message)
    ensures r.id == m.id && r.sender == m.sender && r.timestamp == m.timestamp
    ensures r.text == if m.id == id then newText else m.text
  {
    if m.id == id then m.(text := newText) else m
  }

  /** The list after every message carrying `id` has had its text replaced. */
  function Edited(prev: seq<Message>, id: int, newText: string): (r: seq<Message>)
    ensures |r| == |prev|
  {
    if |prev| == 0 then []
    else [Retexted(prev[0], id, newText)] + Edited(prev[1..], id, newText)
  }

  /** The user type after a toggle. */
  function Toggled(u: string): (r: string)
    ensures r == Staff || r == Customer
    ensures r == Customer <==> u == Staff
  {
    if u == Staff then Customer else Staff
  }

  /** The ids of a list, in order. */
  function Ids(s: seq<Message>): (r: seq<int>)
    ensures |r| == |s|
  {
    if |s| == 0 then [] else [s[0].id] + Ids(s[1..])
  }

  /** Two lists agree on everything except, possibly, the texts. */
  predicate SameExceptText(s: seq<Message>, t: seq<Message>)
  {
    |s| == |t| &&
    forall k :: 0 <= k < |s| ==>
      s[k].id == t[k].id && s[k].sender == t[k].sender && s[k].timestamp == t[k].timestamp
  }

  /** Some message of the list carries `id`. */
  predicate HasId(s: seq<Message>, id: int)
  {
    exists k :: 0 <= k < |s| && s[k].id == id
  }

  // ---------------------------------------------------------------------------
  // Properties of the edit

  /** The edit works element by element, keeping positions. */
  lemma {:induction false} EditedAt(prev: seq<Message>, id: int, newText: string, k: nat)
    requires k < |prev|
    ensures Edited(prev, id, newText)[k] == Retexted(prev[k], id, newText)
  {
    if k > 0 {
      EditedAt(prev[1..], id, newText, k - 1);
    }
  }

  /**
   * Every message carrying `id` gets the new text; every other one is left
   * untouched; ids, senders, timestamps, length and order are kept.
   */
  lemma {:induction false} EditedSpec(prev: seq<Message>, id: int, newText: string)
    ensures SameExceptText(Edited(prev, id, newText), prev)
    ensures forall k :: 0 <= k < |prev| && prev[k].id == id ==>
      Edited(prev, id, newText)[k].text == newText
    ensures forall k :: 0 <= k < |prev| && prev[k].id != id ==>
      Edited(prev, id, newText)[k] == prev[k]
  {
    forall k | 0 <= k < |prev| ensures Edited(prev, id, newText)[k] == Retexted(prev[k], id, newText) {
      EditedAt(prev, id, newText, k);
    }
  }

  /** The edit keeps the ids in the same order. */
  lemma {:induction false} EditedKeepsIds(prev: seq<Message>, id: int, newText: string)
    ensures Ids(Edited(prev, id, newText)) == Ids(prev)
  {
    if |prev| > 0 {
      var r := Edited(prev, id, newText);
      assert r[1..] == Edited(prev[1..], id, newText);
      EditedKeepsIds(prev[1..], id, newText);
    }
  }

  /** An edit leaves the list as it was exactly when every message with `id` already had that text. */
  lemma {:induction false} EditedUnchangedIff(prev: seq<Message>, id: int, newText: string)
    ensures Edited(prev, id, newText) == prev <==>
      forall k :: 0 <= k < |prev| && prev[k].id == id ==> prev[k].text == newText
  {
    EditedSpec(prev, id, newText);
    if Edited(prev, id, newText) != prev {
      var r := Edited(prev, id, newText);
      var k :| 0 <= k < |prev| && r[k] != prev[k];
      assert prev[k].id == id && prev[k].text != newText;
    }
  }

  /** Editing an id that no message carries changes nothing. */
  lemma {:induction false} EditedAbsent(prev: seq<Message>, id: int, newText: string)
    requires !HasId(prev, id)
    ensures Edited(prev, id, newText) == prev
  {
    EditedUnchangedIff(prev, id, newText);
  }

  /** Repeating the same edit changes nothing more. */
  lemma {:induction false} EditedIdempotent(prev: seq<Message>, id: int, newText: string)
    ensures Edited(Edited(prev, id, newText), id, newText) == Edited(prev, id, newText)
  {
    var once := Edited(prev, id, newText);
    EditedSpec(prev, id, newText);
    EditedUnchangedIff(once, id, newText);
  }

  /** Editing after an append edits the old list and the new message independently. */
  lemma {:induction false} EditedAppended(prev: seq<Message>, m: Message, id: int, newText: string)
    ensures Edited(Appended(prev, m), id, newText) ==
            Appended(Edited(prev, id, newText), Retexted(m, id, newText))
  {
    var lhs := Edited(Appended(prev, m), id, newText);
    var rhs := Appended(Edited(prev, id, newText), Retexted(m, id, newText));
    forall k | 0 <= k < |lhs| ensures lhs[k] == rhs[k] {
      EditedAt(Appended(prev, m), id, newText, k);
      if k < |prev| {
        EditedAt(prev, id, newText, k);
      }
    }
  }

  /**
   * Ids are clock readings, not unique keys: when an earlier message was added
   * in the same millisecond as the last one, editing by the id the last add
   * returned rewrites both.
   */
  lemma SameMillisecondEditHitsBoth(prev: seq<Message>, m: Message, now: int,
                                    iso: string, text: string, sender: string, newText: string)
    requires m.id == now
    ensures var after := Edited(Appended(Appended(prev, m), Message(now, text, sender, iso)), now, newText);
      after[|prev|] == m.(text := newText) &&
      after[|prev| + 1] == Message(now, newText, sender, iso)
  {
    var s := Appended(Appended(prev, m), Message(now, text, sender, iso));
    EditedAt(s, now, newText, |prev|);
    EditedAt(s, now, newText, |prev| + 1);
  }

  // ---------------------------------------------------------------------------
  // Properties of the append and the toggle

  /** Appending keeps every earlier id in place and puts the new id last. */
  lemma {:induction false} AppendedIds(prev: seq<Message>, m: Message)
    ensures Ids(Appended(prev, m)) == Ids(prev) + [m.id]
  {
    if |prev| > 0 {
      assert Appended(prev, m)[1..] == Appended(prev[1..], m);
      AppendedIds(prev[1..], m);
    }
  }

  /** Toggling twice restores either of the two user types. */
  lemma ToggledInvolution(u: string)
    requires u == Staff || u == Customer
    ensures Toggled(Toggled(u)) == u
  {
  }

  /** A value that is neither user type is not restored by two toggles: it becomes a customer. */
  lemma ToggledTwiceOther(u: string)
    requires u != Staff && u != Customer
    ensures Toggled(Toggled(u)) == Customer
  {
  }

  // ---------------------------------------------------------------------------
  // The provider's mutable state

  class AppProvider {
    var conversations: seq<Message>
    var currentMessage: string
    var userType: string
    var recognitionStatus: string
    var feedback: Feedback

    /** The state fields that the conversation operations never touch. */
    function Others(): Settings
      reads this
    {
      Settings(currentMessage, userType, recognitionStatus, feedback)
    }

    /** The values the provider starts with. */
    constructor ()
      ensures conversations == []
      ensures currentMessage == ""
      ensures userType == Staff
      ensures recognitionStatus == Idle
      ensures feedback == Feedback(0, "")
    {
      conversations := [];
      currentMessage := "";
      userType := Staff;
      recognitionStatus := Idle;
      feedback := Feedback(0, "");
    }

    /**
     * Adds a message at the end of the conversation. `nowMillis` and `isoNow`
     * are the two clock readings taken for the id and the timestamp.
     */
    method AddMessage(message: string, sender: string, nowMillis: int, isoNow: string)
      returns (id: int)
      modifies this`conversations
      ensures conversations == Appended(old(conversations), Message(nowMillis, message, sender, isoNow))
      ensures id == nowMillis
      ensures Others() == old(Others())
    {
      var newMessage := Message(nowMillis, message, sender, isoNow);
      conversations := Appended(conversations, newMessage);
      id := newMessage.id;
    }

    /** Replaces the text of every message whose id is `id`. */
    method EditMessage(id: int, newText: string)
      modifies this`conversations
      ensures conversations == Edited(old(conversations), id, newText)
      ensures Others() == old(Others())
    {
      conversations := Edited(conversations, id, newText);
    }

    /** Switches between staff and customer; any other value becomes staff. */
    method ToggleUserType()
      modifies this`userType
      ensures userType == Toggled(old(userType))
      ensures conversations == old(conversations)
      ensures currentMessage == old(currentMessage)
      ensures recognitionStatus == old(recognitionStatus) && feedback == old(feedback)
    {
      userType := Toggled(userType);
    }

    /** Empties the conversation; the result does not depend on the old list, so a second call changes nothing. */
    method ClearConversations()
      modifies this`conversations
      ensures conversations == []
      ensures Others() == old(Others())
    {
      conversations := [];
    }

    /** The raw setters the provider exposes. */
    method SetCurrentMessage(v: string)
      modifies this`currentMessage
      ensures currentMessage == v
    {
      currentMessage := v;
    }

    method SetUserType(v: string)
      modifies this`userType
      ensures userType == v
    {
      userType := v;
    }

    method SetRecognitionStatus(v: string)
      modifies this`recognitionStatus
      ensures recognitionStatus == v
    {
      recognitionStatus := v;
    }

    method SetFeedback(v: Feedback)
      modifies this`feedback
      ensures feedback == v
    {
      feedback := v;
    }
  }
}
