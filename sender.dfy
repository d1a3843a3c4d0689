/**
 * Parsing of a `From` header value such as `"Ana Souza" <ana@example.com>`,
 * shared by the email view modal, the email list and the reply composer.
 *
 * - the address is what `/<(.+)>/` captures, or the whole value;
 * - the display name is what `/^(.*)<.*>$/` captures, trimmed and with every
 *   double quote removed, or the whole value;
 * - the initial is the display name's first character, upper-cased.
 *
 * `.` in these regular expressions matches any character except a line
 * terminator, and `*`/`+` are greedy; both are modelled exactly.
 */
module Sender {
  import opened Wrappers
  import opened JsStrings

  // ---------------------------------------------------------------------------
  // /<(.+)>/ : the address
  // ---------------------------------------------------------------------------

  /** `/<(.+)>/` can match with its `<` at `i` and its `>` at `j`. */
  predicate AngleMatch(s: string, i: int, j: int) {
    && 0 <= i && i + 2 <= j < |s|
    && s[i] == '<' && s[j] == '>'
    && forall k :: i < k < j ==> !IsLineTerminator(s[k])
  }

  /** The first index at or after `k` holding a line terminator, or `|s|`. */
  function NextTerminator(s: string, k: nat): (e: nat)
    requires k <= |s|
    ensures k <= e <= |s|
    ensures forall m :: k <= m < e ==> !IsLineTerminator(s[m])
    ensures e < |s| ==> IsLineTerminator(s[e])
    decreases |s| - k
  {
    if k == |s| || IsLineTerminator(s[k]) then k else NextTerminator(s, k + 1)
  }

  /** The largest `j` in `[lo, hi)` with `s[j] == c`, or -1. */
  function LastIndexIn(s: string, c: char, lo: int, hi: int): (j: int)
    requires 0 <= lo && hi <= |s|
    ensures j == -1 || (lo <= j < hi && s[j] == c)
    ensures forall m :: lo <= m < hi && m > j ==> s[m] != c
    decreases hi - lo
  {
    if hi <= lo then -1
    else if s[hi - 1] == c then hi - 1
    else LastIndexIn(s, c, lo, hi - 1)
  }

  /**
   * The regular-expression engine's search for `/<(.+)>/` from position `i`:
   * the leftmost `<` that starts a match, with the greedy `.+` ending at the
   * last reachable `>`.
   */
  function AngleSearch(s: string, i: nat): (r: Option<(nat, nat)>)
    requires i <= |s|
    ensures r.Some? ==> i <= r.value.0 && AngleMatch(s, r.value.0, r.value.1)
    ensures r.Some? ==> forall a, b :: i <= a < r.value.0 ==> !AngleMatch(s, a, b)
    ensures r.Some? ==> forall b :: b > r.value.1 ==> !AngleMatch(s, r.value.0, b)
    ensures r.None? ==> forall a, b :: i <= a ==> !AngleMatch(s, a, b)
    decreases |s| - i
  {
    if i == |s| then None
    else if s[i] == '<' then
      var e := NextTerminator(s, i + 1);
      var j := LastIndexIn(s, '>', i + 2, e);
      if j >= 0 then Some((i, j)) else AngleSearch(s, i + 1)
    else AngleSearch(s, i + 1)
  }

  /** `from.match(/<(.+)>/)?.[1] || from`. */
  function FromAddress(from: string): (r: string)
    ensures AngleSearch(from, 0).Some? ==>
              var (i, j) := AngleSearch(from, 0).value; r == from[i + 1..j] && r != ""
    ensures (forall a, b :: !AngleMatch(from, a, b)) ==> r == from
  {
    match AngleSearch(from, 0)
    case Some((i, j)) => from[i + 1..j]
    case None => from
  }

  // ---------------------------------------------------------------------------
  // /^(.*)<.*>$/ : the display name
  // ---------------------------------------------------------------------------

  /** `/^(.*)<.*>$/` matches `s` with the `<` at `i` (so the capture is `s[..i]`). */
  predicate NameMatch(s: string, i: int) {
    && NoLineTerminator(s)
    && 0 <= i < |s| - 1
    && s[i] == '<' && s[|s| - 1] == '>'
  }

  /**
   * The capture of `/^(.*)<.*>$/`: greedy `(.*)` stops before the last `<`
   * that still leaves the closing `>` at the end.
   */
  function NameSearch(s: string): (r: Option<nat>)
    ensures r.Some? ==> NameMatch(s, r.value) && forall i :: r.value < i ==> !NameMatch(s, i)
    ensures r.None? ==> forall i :: !NameMatch(s, i)
  {
    if NoLineTerminator(s) && |s| >= 2 && s[|s| - 1] == '>' then
      var i := LastIndexIn(s, '<', 0, |s| - 1);
      if i >= 0 then Some(i) else None
    else None
  }

  /** `fromMatch ? fromMatch[1].trim().replace(/"/g, '') : from`. */
  function FromName(from: string): (r: string)
    ensures NameSearch(from).None? ==> r == from
    ensures NameSearch(from).Some? ==>
              r == RemoveAll(Trim(from[..NameSearch(from).value]), '"')
  {
    match NameSearch(from)
    case Some(i) => RemoveAll(Trim(from[..i]), '"')
    case None => from
  }

  /** `fromName.charAt(0).toUpperCase()`. */
  function FromInitial(from: string): (r: string)
    ensures r == [] <==> FromName(from) == []
    ensures FromName(from) != [] ==> r == UpperChar(FromName(from)[0])
  {
    UpperInitial(FromName(from))
  }

  // ---------------------------------------------------------------------------
  // Round trip: formatting a mailbox and parsing it back
  // ---------------------------------------------------------------------------

  /** The mailbox `name <address>` as a mail client writes it. */
  function Mailbox(name: string, address: string): string {
    name + " <" + address + ">"
  }

  /** A display name that survives `trim` and quote removal unchanged. */
  predicate PlainName(name: string) {
    && NoLineTerminator(name)
    && Trim(name) == name
    && forall k :: 0 <= k < |name| ==> name[k] != '<' && name[k] != '"'
  }

  /** An address without angle brackets or line terminators. */
  predicate PlainAddress(address: string) {
    && address != ""
    && NoLineTerminator(address)
    && forall k :: 0 <= k < |address| ==> address[k] != '<' && address[k] != '>'
  }

  /** Parsing `name <address>` gives back both parts. */
  lemma MailboxRoundTrip(name: string, address: string)
    requires PlainName(name) && PlainAddress(address)
    ensures FromAddress(Mailbox(name, address)) == address
    ensures FromName(Mailbox(name, address)) == name
  {
    MailboxPlain(name, address);
    MailboxAddress(name, address);
    MailboxName(name, address);
  }

  lemma MailboxPlain(name: string, address: string)
    requires PlainName(name) && PlainAddress(address)
    ensures NoLineTerminator(Mailbox(name, address))
  {
    NoLineTerminatorAppend(name, " <");
    NoLineTerminatorAppend(name + " <", address);
    NoLineTerminatorAppend(name + " <" + address, ">");
  }

  lemma NoLineTerminatorAppend(a: string, b: string)
    requires NoLineTerminator(a) && NoLineTerminator(b)
    ensures NoLineTerminator(a + b)
  {
    forall k | 0 <= k < |a + b| ensures !IsLineTerminator((a + b)[k]) {
      if k >= |a| { assert (a + b)[k] == b[k - |a|]; }
    }
  }

  lemma {:induction false} MailboxAddress(name: string, address: string)
    requires PlainName(name) && PlainAddress(address)
    requires NoLineTerminator(Mailbox(name, address))
    ensures FromAddress(Mailbox(name, address)) == address
  {
    var s := Mailbox(name, address);
    var lt := |name| + 1;
    var gt := |s| - 1;
    MailboxLayout(name, address);
    assert AngleMatch(s, lt, gt);
    var r := AngleSearch(s, 0);
    assert r.Some?;
    var (i, j) := r.value;
    assert i <= lt;
    assert i >= lt;
    assert j == gt;
  }

  /** Where the parts of `name <address>` sit. */
  lemma MailboxLayout(name: string, address: string)
    requires PlainName(name) && PlainAddress(address)
    ensures var s := Mailbox(name, address);
      && |s| == |name| + |address| + 3
      && s[|name| + 1] == '<' && s[|s| - 1] == '>'
      && (forall k :: 0 <= k <= |name| ==> s[k] != '<')
      && s[|name| + 2..|s| - 1] == address
  {
    var s := Mailbox(name, address);
    assert s == name + " <" + address + ">";
    forall k | 0 <= k <= |name| ensures s[k] != '<' {
      if k < |name| { assert s[k] == name[k]; }
    }
    assert s[|name| + 2..|s| - 1] == address;
  }

  lemma {:induction false} MailboxName(name: string, address: string)
    requires PlainName(name) && PlainAddress(address)
    requires NoLineTerminator(Mailbox(name, address))
    ensures FromName(Mailbox(name, address)) == name
  {
    var s := Mailbox(name, address);
    var lt := |name| + 1;
    var gt := |s| - 1;
    assert s[lt] == '<' && s[gt] == '>';
    assert NameMatch(s, lt);
    var n := NameSearch(s);
    assert n == Some(lt);
    assert s[..lt] == name + " ";
    TrimAppendSpace(name);
  }

  /** A trailing space disappears under `trim` when the rest is already trimmed. */
  lemma {:induction false} TrimAppendSpace(name: string)
    requires Trim(name) == name
    ensures Trim(name + " ") == name
  {
    var s := name + " ";
    var t := TrimStart(s);
    if name == [] {
      assert t == [];
    } else {
      assert !IsTrimmable(name[0]);
      assert t == s;
      assert TrimEnd(s) == TrimEnd(name);
      assert name == TrimEnd(TrimStart(name));
      assert TrimStart(name) == name;
    }
  }
}
