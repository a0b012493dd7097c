/** The pure helpers the shell uses on strings: splitting an email at '@'
    for the display name, the two user-visible diagnostics and how a thrown
    message is turned into one of them, and the login form's input guard. */
module Text {

  /** The message Chromium's fetch gives when the backend cannot be reached
      (other engines word it differently, and the shell treats those as
      ordinary messages). */
  const FailedToFetch: string := "Failed to fetch"

  /** Shown when a failed login or registration carries no message. */
  const GenericAuthFailure: string := "Authentication failed. Please check credentials."

  const ConnectionPrefix: string := "Connection Failed. Please add \""
  const ConnectionSuffix: string := "\" to your Appwrite Console > Overview > Platforms."

  /** The connectivity diagnostic naming the browser's host. */
  function ConnectionMessage(host: string): (m: string)
    ensures |m| == |ConnectionPrefix| + |host| + |ConnectionSuffix|
    ensures m[..|ConnectionPrefix|] == ConnectionPrefix
    ensures m[|ConnectionPrefix|..|ConnectionPrefix| + |host|] == host
    ensures m[|ConnectionPrefix| + |host|..] == ConnectionSuffix
  {
    var m := ConnectionPrefix + host + ConnectionSuffix;
    assert m[|ConnectionPrefix|..|ConnectionPrefix| + |host|] == host;
    m
  }

  /** `sub` occurs in `s` starting at index `i`. */
  predicate OccursAt(s: string, sub: string, i: int) {
    0 <= i <= |s| - |sub| && s[i..i + |sub|] == sub
  }

  /** `sub` occurs in `s` as a contiguous piece. */
  ghost predicate Contains(s: string, sub: string) {
    exists i :: OccursAt(s, sub, i)
  }

  lemma ConnectionMessageMentionsHost(host: string)
    ensures Contains(ConnectionMessage(host), host)
  {
    var m := ConnectionMessage(host);
    var i := |ConnectionPrefix|;
    assert m[i..i + |host|] == host;
    assert OccursAt(m, host, i);
  }

  /** Distinct hosts give distinct diagnostics: the text names the host exactly. */
  lemma ConnectionMessageInjective(h1: string, h2: string)
    ensures ConnectionMessage(h1) == ConnectionMessage(h2) ==> h1 == h2
  {
    if ConnectionMessage(h1) == ConnectionMessage(h2) {
      var p := |ConnectionPrefix|;
      assert |h1| == |h2|;
      assert h1 == ConnectionMessage(h1)[p..p + |h1|];
      assert h2 == ConnectionMessage(h2)[p..p + |h2|];
    }
  }

  /** The banner text after a failed session check: the connectivity
      diagnostic on a network failure, otherwise the banner already shown. */
  function SessionErrorText(message: string, host: string, current: string): (r: string)
    ensures message == FailedToFetch ==> r == ConnectionMessage(host) && Contains(r, host)
    ensures message != FailedToFetch ==> r == current
  {
    if message == FailedToFetch then
      ConnectionMessageMentionsHost(host);
      ConnectionMessage(host)
    else current
  }

  /** The banner text after a failed login or registration. */
  function AuthErrorText(message: string, host: string): (r: string)
    ensures r != ""
    ensures message == FailedToFetch ==> r == ConnectionMessage(host) && Contains(r, host)
    ensures message != FailedToFetch && message != "" ==> r == message
    ensures message == "" ==> r == GenericAuthFailure
  {
    if message == FailedToFetch then
      ConnectionMessageMentionsHost(host);
      ConnectionMessage(host)
    else if message != "" then message
    else GenericAuthFailure
  }

  /** Index of the first `c` in `s`, or `|s|` when there is none. */
  function IndexOf(s: string, c: char): (k: nat)
    ensures k <= |s|
    ensures c !in s[..k]
    ensures k < |s| <==> c in s
    ensures k < |s| ==> s[k] == c
  {
    if s == [] then 0
    else if s[0] == c then 0
    else
      var k := 1 + IndexOf(s[1..], c);
      assert s[..k] == [s[0]] + s[1..][..k - 1];
      k
  }

  /** String.prototype.split with a one-character separator: the pieces
      between consecutive separators, at least one (the empty string gives [""]). */
  function Split(s: string, sep: char): (parts: seq<string>)
    ensures |parts| >= 1
    ensures forall i :: 0 <= i < |parts| ==> sep !in parts[i]
    decreases |s|
  {
    var k := IndexOf(s, sep);
    if k == |s| then [s]
    else [s[..k]] + Split(s[k + 1..], sep)
  }

  /** The inverse of Split: the pieces with the separator put back between them. */
  function Join(parts: seq<string>, sep: char): string
    requires |parts| >= 1
  {
    if |parts| == 1 then parts[0]
    else parts[0] + [sep] + Join(parts[1..], sep)
  }

  lemma {:induction false} JoinSplit(s: string, sep: char)
    ensures Join(Split(s, sep), sep) == s
    decreases |s|
  {
    var k := IndexOf(s, sep);
    if k < |s| {
      var rest := Split(s[k + 1..], sep);
      var parts := [s[..k]] + rest;
      assert Split(s, sep) == parts;
      assert parts[0] == s[..k] && parts[1..] == rest;
      JoinSplit(s[k + 1..], sep);
      calc {
        Join(parts, sep);
        s[..k] + [sep] + Join(rest, sep);
        s[..k] + [sep] + s[k + 1..];
        { assert s == s[..k] + [sep] + s[k + 1..]; }
        s;
      }
    }
  }

  lemma IndexOfAfterPiece(p: string, sep: char, t: string)
    requires sep !in p
    ensures IndexOf(p + [sep] + t, sep) == |p|
  {
    var s := p + [sep] + t;
    var k := IndexOf(s, sep);
    assert s[|p|] == sep;
    assert s[..|p|] == p;
  }

  lemma {:induction false} SplitJoin(parts: seq<string>, sep: char)
    requires |parts| >= 1
    requires forall i :: 0 <= i < |parts| ==> sep !in parts[i]
    ensures Split(Join(parts, sep), sep) == parts
  {
    var p := parts[0];
    assert sep !in p;
    if |parts| == 1 {
      assert IndexOf(p, sep) == |p|;
    } else {
      var tail := parts[1..];
      assert forall i :: 0 <= i < |tail| ==> sep !in tail[i] by {
        forall i | 0 <= i < |tail| ensures sep !in tail[i] {
          assert tail[i] == parts[i + 1];
        }
      }
      var rest := Join(tail, sep);
      var s := p + [sep] + rest;
      assert Join(parts, sep) == s;
      IndexOfAfterPiece(p, sep, rest);
      assert s[..|p|] == p;
      assert s[|p| + 1..] == rest;
      assert Split(s, sep) == [p] + Split(rest, sep);
      SplitJoin(tail, sep);
      assert parts == [p] + tail;
    }
  }

  /** `email.split('@')[0]`: the display name given to a new account. */
  function DisplayName(email: string): (r: string)
    ensures r <= email && '@' !in r
    ensures |r| < |email| ==> email[|r|] == '@'
  {
    Split(email, '@')[0]
  }

  /** The display name is the part of the email before its first '@',
      or the whole email when it has none. */
  lemma DisplayNameIsLocalPart(email: string)
    ensures DisplayName(email) <= email
    ensures '@' !in DisplayName(email)
    ensures '@' in email ==> email[|DisplayName(email)|] == '@'
    ensures '@' !in email ==> DisplayName(email) == email
  {
  }

  /** Those facts single out the display name: it is the only '@'-free
      prefix of the email that is the whole email or is followed by '@'. */
  lemma LocalPartUnique(email: string, r: string)
    requires r <= email && '@' !in r
    requires |r| < |email| ==> email[|r|] == '@'
    ensures r == DisplayName(email)
  {
  }

  lemma DisplayNameOfAddress(local: string, domain: string)
    requires '@' !in local
    ensures DisplayName(local + ['@'] + domain) == local
  {
    var e := local + ['@'] + domain;
    IndexOfAfterPiece(local, '@', domain);
    assert e[..|local|] == local;
  }

  lemma DisplayNameExample()
    ensures DisplayName("demo@example.com") == "demo"
  {
    assert "demo@example.com" == "demo" + ['@'] + "example.com";
    DisplayNameOfAddress("demo", "example.com");
  }

  /** The login form submits only when both `required` inputs are filled and
      the password meets `minLength={8}`. */
  predicate CanSubmit(email: string, password: string) {
    email != "" && |password| >= 8
  }

  lemma CanSubmitExamples()
    ensures !CanSubmit("demo@example.com", "abc123")
    ensures CanSubmit("demo@example.com", "abc12345")
    ensures !CanSubmit("", "abc12345")
  {
  }
}
