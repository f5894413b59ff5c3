/** The error text of a tick without a usable probe: each message once, in the order in which they first
    came, joined and cut to what the column holds. Strings are byte strings; what is valid UTF-8, and how
    an invalid string is repaired, are parameters. */
module ProbeErrors {

  const MAX_SAMPLE_ERROR := 2048
  const SEPARATOR := "; "

  function FirstOccurrences(messages: seq<string>): seq<string> {
    if messages == [] then []
    else
      var init, last := messages[..|messages| - 1], messages[|messages| - 1];
      if last in init then FirstOccurrences(init) else FirstOccurrences(init) + [last]
  }

  function FirstIndex(messages: seq<string>, message: string): (k: nat)
    requires message in messages
    ensures k < |messages| && messages[k] == message && message !in messages[..k]
  {
    var init := messages[..|messages| - 1];
    if message in init then
      var k := FirstIndex(init, message);
      assert messages[..k] == init[..k];
      k
    else |messages| - 1
  }

  lemma {:induction false} FirstsContents(messages: seq<string>)
    ensures forall m :: m in FirstOccurrences(messages) <==> m in messages
  {
    if messages != [] {
      var init, last := messages[..|messages| - 1], messages[|messages| - 1];
      FirstsContents(init);
      assert messages == init + [last];
    }
  }

  /** No message comes twice, and they keep the order of their first occurrences. */
  lemma {:induction false} FirstsInOrder(messages: seq<string>)
    ensures forall m | m in FirstOccurrences(messages) :: m in messages
    ensures var u := FirstOccurrences(messages);
            forall i, j | 0 <= i < j < |u| :: FirstIndex(messages, u[i]) < FirstIndex(messages, u[j])
  {
    FirstsContents(messages);
    if messages != [] {
      var init, last := messages[..|messages| - 1], messages[|messages| - 1];
      var u := FirstOccurrences(messages);
      FirstsInOrder(init);
      FirstsContents(init);
      forall i, j | 0 <= i < j < |u| ensures FirstIndex(messages, u[i]) < FirstIndex(messages, u[j]) {
        assert u[i] == FirstOccurrences(init)[i] && FirstIndex(messages, u[i]) == FirstIndex(init, u[i]);
        if u[j] in init {
          assert u[j] == FirstOccurrences(init)[j] && FirstIndex(messages, u[j]) == FirstIndex(init, u[j]);
        } else {
          assert FirstIndex(messages, u[j]) == |init|;
        }
      }
    }
  }

  function Join(parts: seq<string>): string {
    if parts == [] then ""
    else if |parts| == 1 then parts[0]
    else Join(parts[..|parts| - 1]) + SEPARATOR + parts[|parts| - 1]
  }

  ghost predicate LongestValidPrefix(full: string, r: string, limit: nat, valid: string -> bool)
    requires limit <= |full|
  {
    |r| <= limit && r == full[..|r|] && valid(r) && forall n | |r| < n <= limit :: !valid(full[..n])
  }

  ghost predicate IsErrorText(messages: seq<string>, r: string, toValid: string -> string, valid: string -> bool) {
    var full := toValid(Join(FirstOccurrences(messages)));
    if |full| <= MAX_SAMPLE_ERROR then r == full else LongestValidPrefix(full, r, MAX_SAMPLE_ERROR, valid)
  }

  method JoinProbeErrors(messages: seq<string>, toValid: string -> string, valid: string -> bool) returns (r: string)
    requires valid("")
    ensures IsErrorText(messages, r, toValid, valid)
  {
    var unique: seq<string>, seen: set<string> := [], {};
    var index := 0;
    while index < |messages|
      invariant 0 <= index <= |messages|
      invariant unique == FirstOccurrences(messages[..index])
      invariant forall m :: m in seen <==> m in messages[..index]
    {
      var message := messages[index];
      assert messages[..index + 1] == messages[..index] + [message];
      assert messages[..index + 1][..index] == messages[..index];
      if message !in seen {
        seen := seen + {message};
        unique := unique + [message];
      }
      index := index + 1;
    }
    assert messages[..index] == messages;
    r := toValid(Join(unique));
    if |r| > MAX_SAMPLE_ERROR {
      ghost var full := r;
      r := r[..MAX_SAMPLE_ERROR];
      while !valid(r)
        invariant |r| <= MAX_SAMPLE_ERROR && r == full[..|r|]
        invariant forall n | |r| < n <= MAX_SAMPLE_ERROR :: !valid(full[..n])
        decreases |r|
      {
        assert r != "";
        r := r[..|r| - 1];
      }
    }
  }
}
