/** The chat panel: a transcript, the text being typed and a loading flag;
    sending appends the question and the answer. The request is a
    parameter holding its outcome. */
module ChatPanel {
  import opened Wrappers

  datatype Role = User | Assistant

  datatype Message = Message(role: Role, content: string)

  const Apology := "Sorry, I could not fetch an answer right now."

  /** The characters `String.prototype.trim` removes: the ECMAScript
      white space and line terminators. */
  predicate IsWhitespace(c: char)
  {
    || c == '\t' || c == '\n' || c == '\U{000B}' || c == '\U{000C}' || c == '\r' || c == ' '
    || c == '\U{00A0}' || c == '\U{1680}' || ('\U{2000}' <= c <= '\U{200A}')
    || c == '\U{2028}' || c == '\U{2029}' || c == '\U{202F}' || c == '\U{205F}'
    || c == '\U{3000}' || c == '\U{FEFF}'
  }

  /** How many white-space characters `s` starts with. */
  function LeadingSpace(s: string): (n: nat)
    ensures n <= |s|
  {
    if s != [] && IsWhitespace(s[0]) then 1 + LeadingSpace(s[1..]) else 0
  }

  /** How many white-space characters `s` ends with. */
  function TrailingSpace(s: string): (n: nat)
    ensures n <= |s|
  {
    if s != [] && IsWhitespace(s[|s| - 1]) then 1 + TrailingSpace(s[..|s| - 1]) else 0
  }

  /** The leading run is exactly the white space before the first other
      character. */
  lemma {:induction false} LeadingSpaceSpec(s: string)
    ensures forall i :: 0 <= i < LeadingSpace(s) ==> IsWhitespace(s[i])
    ensures LeadingSpace(s) < |s| ==> !IsWhitespace(s[LeadingSpace(s)])
  {
    if s != [] && IsWhitespace(s[0]) {
      var n := LeadingSpace(s);
      LeadingSpaceSpec(s[1..]);
      forall i | 0 < i < n ensures IsWhitespace(s[i]) {
        assert s[i] == s[1..][i - 1];
      }
      if n < |s| {
        assert s[n] == s[1..][n - 1];
      }
    }
  }

  /** The trailing run is exactly the white space after the last other
      character. */
  lemma {:induction false} TrailingSpaceSpec(s: string)
    ensures forall i :: |s| - TrailingSpace(s) <= i < |s| ==> IsWhitespace(s[i])
    ensures TrailingSpace(s) < |s| ==> !IsWhitespace(s[|s| - TrailingSpace(s) - 1])
  {
    if s != [] && IsWhitespace(s[|s| - 1]) {
      var n := TrailingSpace(s);
      var t := s[..|s| - 1];
      TrailingSpaceSpec(t);
      forall i | |s| - n <= i < |s| - 1 ensures IsWhitespace(s[i]) {
        assert s[i] == t[i];
      }
      if n < |s| {
        assert s[|s| - n - 1] == t[|t| - (n - 1) - 1];
      }
    }
  }

  /** `String.prototype.trim`: `s` without its leading and trailing white
      space. */
  function Trim(s: string): string
  {
    var t := s[LeadingSpace(s)..];
    t[..|t| - TrailingSpace(t)]
  }

  /** The trimmed text is empty exactly when every character is white
      space; otherwise it begins and ends with a character that is not. */
  lemma {:induction false} TrimBlank(s: string)
    ensures Trim(s) == [] <==> forall i :: 0 <= i < |s| ==> IsWhitespace(s[i])
    ensures Trim(s) != [] ==> !IsWhitespace(Trim(s)[0]) && !IsWhitespace(Trim(s)[|Trim(s)| - 1])
  {
    var a := LeadingSpace(s);
    var t := s[a..];
    var b := TrailingSpace(t);
    LeadingSpaceSpec(s);
    TrailingSpaceSpec(t);
    if Trim(s) == [] {
      // a character that is not white space would start `t` and survive
      assert a == |s|;
    } else {
      assert Trim(s)[0] == s[a];
      assert Trim(s)[|Trim(s)| - 1] == t[|t| - b - 1];
      assert !IsWhitespace(s[a]);
    }
  }

  /** The state `handleSend` works on. */
  datatype PanelState = PanelState(history: seq<Message>, input: string, loading: bool)

  /** `handleSend` as a transition: blank input changes nothing; otherwise
      the raw input is appended as the user's message, then the answer,
      or the apology when the request failed, as the assistant's; the
      input is cleared and loading ends. */
  function Send(st: PanelState, reply: Fetch<string>): (r: PanelState)
    ensures Trim(st.input) == [] ==> r == st
    ensures Trim(st.input) != [] ==>
      && |r.history| == |st.history| + 2
      && r.history[..|st.history|] == st.history
      && r.history[|st.history|] == Message(User, st.input)
      && r.history[|st.history| + 1].role == Assistant
      && r.input == ""
      && !r.loading
    ensures Trim(st.input) != [] && reply.Failed? ==> r.history[|st.history| + 1].content == Apology
    ensures Trim(st.input) != [] && reply.Received? ==> r.history[|st.history| + 1].content == reply.body
  {
    if Trim(st.input) == [] then st
    else
      var answer := if reply.Received? then reply.body else Apology;
      PanelState(st.history + [Message(User, st.input), Message(Assistant, answer)], "", false)
  }

  /** A conversation: for each event the user types the text, then sends
      it and the request ends with the outcome. */
  function Session(st: PanelState, events: seq<(string, Fetch<string>)>): PanelState
    decreases |events|
  {
    if events == [] then st
    else Session(Send(st.(input := events[0].0), events[0].1), events[1..])
  }

  /** How many of the typed texts are not blank. */
  function Sent(events: seq<(string, Fetch<string>)>): nat
  {
    if events == [] then 0
    else (if Trim(events[0].0) == [] then 0 else 1) + Sent(events[1..])
  }

  /** The role of the message at offset `o` of a run of exchanges: user
      at even offsets, assistant at odd ones. */
  function RoleAt(o: nat): Role
  {
    if o == 0 then User else if o == 1 then Assistant else RoleAt(o - 2)
  }

  /** From offset `from` on, the messages of `h` alternate user,
      assistant, user, ... */
  predicate Alternating(h: seq<Message>, from: nat)
  {
    from <= |h| && forall k :: from <= k < |h| ==> h[k].role == RoleAt(k - from)
  }

  /** A user message and an assistant message in front of an alternating
      run make a longer alternating run. */
  lemma {:induction false} AlternatingExtend(h: seq<Message>, from: nat)
    requires from + 2 <= |h| && h[from].role == User && h[from + 1].role == Assistant
    requires Alternating(h, from + 2)
    ensures Alternating(h, from)
  {
    forall k | from + 2 <= k < |h| ensures h[k].role == RoleAt(k - from) {
      assert RoleAt(k - from) == RoleAt(k - from - 2);
    }
  }

  /** Over a whole conversation the transcript only grows, by two
      messages per non-blank send, user and assistant in turn. */
  lemma {:induction false} SessionAppendOnly(st: PanelState, events: seq<(string, Fetch<string>)>)
    ensures var h := Session(st, events).history;
      && st.history <= h
      && |h| == |st.history| + 2 * Sent(events)
      && Alternating(h, |st.history|)
    decreases |events|
  {
    if events != [] {
      var next := Send(st.(input := events[0].0), events[0].1);
      SessionAppendOnly(next, events[1..]);
      var h := Session(next, events[1..]).history;
      assert Session(st, events).history == h;
      if Trim(events[0].0) != [] {
        var n := |st.history|;
        assert h[n] == next.history[n] && h[n + 1] == next.history[n + 1];
        AlternatingExtend(h, n);
      }
    }
  }

  class Panel {
    var history: seq<Message>
    var input: string
    var loading: bool

    constructor ()
      ensures history == [] && input == "" && !loading
    {
      history := [];
      input := "";
      loading := false;
    }

    function State(): PanelState
      reads this
    {
      PanelState(history, input, loading)
    }

    /** `handleSend`, step by step. */
    method HandleSend(reply: Fetch<string>)
      modifies this
      ensures State() == Send(old(State()), reply)
      ensures old(history) <= history
    {
      if Trim(input) == [] {
        return;
      }
      var userMsg := Message(User, input);
      history := history + [userMsg];
      loading := true;
      var botMsg := if reply.Received? then Message(Assistant, reply.body) else Message(Assistant, Apology);
      history := history + [botMsg];
      assert history == old(history) + [userMsg, botMsg];
      loading := false;
      input := "";
    }

    /** `handleKeyDown`: Enter without Shift sends; any other key changes
        nothing. */
    method HandleKeyDown(key: string, shiftKey: bool, reply: Fetch<string>)
      modifies this
      ensures key == "Enter" && !shiftKey ==> State() == Send(old(State()), reply)
      ensures !(key == "Enter" && !shiftKey) ==> State() == old(State())
    {
      if key == "Enter" && !shiftKey {
        HandleSend(reply);
      }
    }
  }
}
