/** `infra.py`: the tenant_ids list in terraform.tfvars, found by a pattern, parsed, extended and written back. */
module TfVars {
  import opened Names
  import opened Retry

  // ---- the list's own syntax ----

  /** The first position from i on that holds c, or the length. */
  function Find(s: string, c: char, i: nat): (j: nat)
    requires i <= |s|
    ensures i <= j <= |s| && (j < |s| ==> s[j] == c) && forall k | i <= k < j :: s[k] != c
    decreases |s| - i
  {
    if i == |s| || s[i] == c then i else Find(s, c, i + 1)
  }

  /** `re.findall` of quoted ids: a quote opens an id only if everything up to the next quote is one. */
  function ParseIds(inner: string): seq<TenantId> {
    if inner == "" then []
    else if inner[0] != '"' then ParseIds(inner[1..])
    else
      var close := Find(inner, '"', 1);
      if close < |inner| && ValidId(inner[1..close]) then [inner[1..close]] + ParseIds(inner[close + 1..])
      else ParseIds(inner[1..])
  }

  function Quoted(id: TenantId): string { "\"" + id + "\"" }

  function Listing(ids: seq<TenantId>): string {
    if ids == [] then "" else if |ids| == 1 then Quoted(ids[0]) else Quoted(ids[0]) + ", " + Listing(ids[1..])
  }

  function FormatIds(ids: seq<TenantId>): string { "[" + Listing(ids) + "]" }

  predicate AllValid(ids: seq<TenantId>) { forall id | id in ids :: ValidId(id) }

  lemma ValidIdChars(id: TenantId, c: char)
    requires ValidId(id) && c in id
    ensures IdChar(c)
  {
  }

  lemma QuoteEnds(id: TenantId, rest: string)
    requires ValidId(id)
    ensures Find(Quoted(id) + rest, '"', 1) == |id| + 1
  {
    var s := Quoted(id) + rest;
    forall k | 1 <= k < |id| + 1 ensures s[k] != '"' {
      assert s[k] == id[k - 1];
      ValidIdChars(id, s[k]);
    }
    FindStops(s, '"', 1, |id| + 1);
  }

  /** A quoted id at the front is read as that id. */
  lemma ParseQuoted(id: TenantId, rest: string)
    requires ValidId(id)
    ensures ParseIds(Quoted(id) + rest) == [id] + ParseIds(rest)
  {
    var s := Quoted(id) + rest;
    QuoteEnds(id, rest);
    assert s[0] == '"' && s[1..|id| + 1] == id && s[|id| + 2..] == rest;
    hide ValidId, Find, Quoted;
  }

  lemma ParseSeparator(rest: string)
    ensures ParseIds(", " + rest) == ParseIds(rest)
  {
    assert (", " + rest)[1..] == " " + rest && (" " + rest)[1..] == rest;
  }

  /** Writing a list of valid ids and reading it back gives the list. */
  lemma {:induction false} RoundTrip(ids: seq<TenantId>)
    requires AllValid(ids)
    ensures ParseIds(Listing(ids)) == ids
  {
    if |ids| == 1 {
      assert Quoted(ids[0]) == Quoted(ids[0]) + "";
      ParseQuoted(ids[0], "");
    } else if |ids| > 1 {
      hide ParseIds, ValidId;
      var rest := Listing(ids[1..]);
      RoundTrip(ids[1..]);
      ParseQuoted(ids[0], ", " + rest);
      ParseSeparator(rest);
      assert Quoted(ids[0]) + ", " + rest == Quoted(ids[0]) + (", " + rest);
    }
  }

  /** Whatever the text, only valid ids are ever read. */
  lemma {:induction false} ParsedIdsAreValid(inner: string)
    ensures AllValid(ParseIds(inner))
    decreases |inner|
  {
    if inner != "" {
      if inner[0] != '"' {
        ParsedIdsAreValid(inner[1..]);
      } else {
        var close := Find(inner, '"', 1);
        ParsedIdsAreValid(inner[1..]);
        if close < |inner| {
          ParsedIdsAreValid(inner[close + 1..]);
        }
      }
    }
  }

  lemma {:induction false} ListingHasNoBracket(ids: seq<TenantId>)
    requires AllValid(ids)
    ensures ']' !in Listing(ids)
  {
    if ids != [] {
      forall c | c in Quoted(ids[0]) ensures c != ']' {
        if c in ids[0] {
          ValidIdChars(ids[0], c);
        }
      }
      ListingHasNoBracket(ids[1..]);
    }
  }

  // ---- the pattern ----

  /** What `\s` matches in a text pattern: the blanks of Unicode. */
  predicate Space(c: char) {
    var n := c as int;
    || 9 <= n <= 13 || 28 <= n <= 32 || n == 133 || n == 160 || n == 5760 || 8192 <= n <= 8202
    || n == 8232 || n == 8233 || n == 8239 || n == 8287 || n == 12288
  }

  /** Past all blanks, newlines included. */
  function Skip(s: string, i: nat): (j: nat)
    requires i <= |s|
    ensures i <= j <= |s|
    decreases |s| - i
  {
    if i < |s| && Space(s[i]) then Skip(s, i + 1) else i
  }

  const KEY := "tenant_ids"

  predicate KeyAt(s: string, a: nat) { a + |KEY| <= |s| && s[a..a + |KEY|] == KEY }

  /** `\s*tenant_ids\s*=\s*\[` from position p: where the bracket is. */
  function Header(s: string, p: nat): (o: Option<nat>)
    requires p <= |s|
    ensures o.Some? ==> p <= o.value < |s| && s[o.value] == '['
  {
    var a := Skip(s, p);
    if !KeyAt(s, a) then None
    else
      var b := Skip(s, a + |KEY|);
      if b == |s| || s[b] != '=' then None
      else
        var c := Skip(s, b + 1);
        if c == |s| || s[c] != '[' then None else Some(c)
  }

  /** `(\s*)$` with `$` also before a newline: blank to the end of a line. */
  predicate BlankToEol(t: string) {
    t == "" || t[0] == '\n' || (Space(t[0]) && BlankToEol(t[1..]))
  }

  /** The bracket pair of a match at p. */
  datatype Span = Span(open: nat, close: nat)

  /** A bracketed list that ends its line. */
  predicate ListAt(s: string, m: Span) {
    && m.open < m.close < |s| && s[m.open] == '[' && Find(s, ']', m.open) == m.close && BlankToEol(s[m.close + 1..])
  }

  function MatchAt(s: string, p: nat): (m: Option<Span>)
    requires p <= |s|
    ensures m.Some? ==> p <= m.value.open && ListAt(s, m.value)
  {
    var h := Header(s, p);
    if h.None? then None
    else
      var close := Find(s, ']', h.value);
      if close < |s| && BlankToEol(s[close + 1..]) then Some(Span(h.value, close)) else None
  }

  predicate LineStart(s: string, p: nat)
    requires p <= |s|
  {
    p == 0 || s[p - 1] == '\n'
  }

  /** `search`: the leftmost match. */
  function Search(s: string, p: nat): (m: Option<Span>)
    requires p <= |s|
    ensures m.Some? ==> p <= m.value.open && ListAt(s, m.value)
    decreases |s| - p
  {
    if LineStart(s, p) && MatchAt(s, p).Some? then MatchAt(s, p)
    else if p == |s| then None
    else Search(s, p + 1)
  }

  function Inner(s: string, m: Span): string
    requires m.open < m.close < |s|
  {
    s[m.open + 1..m.close]
  }

  /** The text with the list rewritten. */
  function Rewritten(s: string, m: Span, ids: seq<TenantId>): string
    requires m.open < m.close < |s|
  {
    s[..m.open] + FormatIds(ids) + s[m.close + 1..]
  }

  // ---- rewriting the list does not move it ----

  /** Both texts are the same up to and including a bracket at n. */
  predicate Agree(s: string, t: string, n: nat) {
    n < |s| && n < |t| && s[n] == '[' && forall k | 0 <= k <= n :: s[k] == t[k]
  }

  lemma {:induction false} SkipAgrees(s: string, t: string, i: nat, n: nat)
    requires i <= n && Agree(s, t, n)
    ensures Skip(s, i) == Skip(t, i) <= n
    decreases n - i
  {
    if Space(s[i]) {
      SkipAgrees(s, t, i + 1, n);
    }
  }

  lemma KeyAgrees(s: string, t: string, a: nat, n: nat)
    requires a <= n && Agree(s, t, n)
    ensures KeyAt(s, a) == KeyAt(t, a) && (KeyAt(s, a) ==> a + |KEY| <= n)
  {
    if a + |KEY| <= n {
      assert s[a..a + |KEY|] == t[a..a + |KEY|];
    } else {
      assert KEY[n - a] != '[' && s[a + (n - a)] == '[' && t[a + (n - a)] == '[';
    }
  }

  /** The header at p is decided by the text up to any bracket at or after p. */
  lemma HeaderAgrees(s: string, t: string, p: nat, n: nat)
    requires p <= n && Agree(s, t, n)
    ensures Header(s, p) == Header(t, p) && (Header(s, p).Some? ==> Header(s, p).value <= n)
  {
    SkipAgrees(s, t, p, n);
    var a := Skip(s, p);
    KeyAgrees(s, t, a, n);
    if KeyAt(s, a) {
      SkipAgrees(s, t, a + |KEY|, n);
      var b := Skip(s, a + |KEY|);
      if s[b] == '=' {
        SkipAgrees(s, t, b + 1, n);
      }
    }
    hide KeyAt;
  }

  lemma {:induction false} FindStops(s: string, c: char, i: nat, j: nat)
    requires i <= j < |s| && s[j] == c && forall k | i <= k < j :: s[k] != c
    ensures Find(s, c, i) == j
  {
  }

  lemma {:induction false} BlankAgrees(s: string, t: string, i: nat, n: nat)
    requires i <= n && Agree(s, t, n)
    ensures BlankToEol(s[i..]) <==> BlankToEol(t[i..])
    decreases n - i
  {
    assert s[i..][0] == t[i..][0] && s[i..][1..] == s[i + 1..] && t[i..][1..] == t[i + 1..];
    if i < n {
      BlankAgrees(s, t, i + 1, n);
    }
  }

  /** The list m of s, rewritten, is the list m1 of t. */
  predicate Moved(s: string, m: Span, t: string, m1: Span) {
    && ListAt(s, m) && ListAt(t, m1) && m1.open == m.open && Agree(s, t, m.open)
  }

  lemma MatchMoves(s: string, m: Span, t: string, m1: Span, p: nat)
    requires Moved(s, m, t, m1) && p <= m.open
    ensures MatchAt(s, p) == Some(m) ==> MatchAt(t, p) == Some(m1)
    ensures MatchAt(t, p).Some? ==> MatchAt(s, p).Some?
  {
    hide Header, BlankToEol, Find, Agree;
    HeaderAgrees(s, t, p, m.open);
    if Header(s, p).Some? {
      TailMoves(s, m, t, m1, Header(s, p).value);
    }
  }

  /** Closing bracket and end of line after an opening bracket at o. */
  lemma TailMoves(s: string, m: Span, t: string, m1: Span, o: nat)
    requires Moved(s, m, t, m1) && o <= m.open
    ensures var cs, ct := Find(s, ']', o), Find(t, ']', o);
            || (cs == m.close && ct == m1.close && BlankToEol(s[cs + 1..]) && BlankToEol(t[ct + 1..]))
            || (cs == ct < m.open && (BlankToEol(s[cs + 1..]) <==> BlankToEol(t[ct + 1..])))
  {
    var ct := Find(t, ']', o);
    if ct < m.open {
      FindStops(s, ']', o, ct);
      BlankAgrees(s, t, ct + 1, m.open);
    } else {
      FindStops(s, ']', o, m.close);
      FindStops(t, ']', o, m1.close);
    }
    hide BlankToEol;
  }

  lemma SearchGoesOn(s: string, p: nat)
    requires p < |s|
    ensures Search(s, p) == if LineStart(s, p) && MatchAt(s, p).Some? then MatchAt(s, p) else Search(s, p + 1)
  {
    hide MatchAt, LineStart, ListAt;
  }

  lemma LineStartMoves(s: string, m: Span, t: string, m1: Span, p: nat)
    requires Moved(s, m, t, m1) && p <= m.open
    ensures m.open < |s| && m.open < |t| && (LineStart(s, p) <==> LineStart(t, p))
  {
  }

  lemma {:induction false} SearchMoves(s: string, m: Span, t: string, m1: Span, p: nat)
    requires Moved(s, m, t, m1) && p <= m.open && Search(s, p) == Some(m)
    ensures Search(t, p) == Some(m1)
    decreases m.open - p
  {
    hide Search, MatchAt, Moved, LineStart, ListAt;
    LineStartMoves(s, m, t, m1, p);
    MatchMoves(s, m, t, m1, p);
    SearchGoesOn(s, p);
    SearchGoesOn(t, p);
    if !(LineStart(s, p) && MatchAt(s, p).Some?) {
      SearchMoves(s, m, t, m1, p + 1);
    }
  }

  /** The texts are the same outside the brackets of their lists. */
  predicate SameOutside(s: string, m: Span, t: string, m1: Span) {
    && m.open < m.close < |s| && m1.open < m1.close < |t|
    && t[..m1.open + 1] == s[..m.open + 1] && t[m1.close..] == s[m.close..]
  }

  lemma Splice(s: string, m: Span, ids: seq<TenantId>)
    requires ListAt(s, m)
    ensures var t, m1 := Rewritten(s, m, ids), Span(m.open, m.open + 1 + |Listing(ids)|);
            SameOutside(s, m, t, m1) && Inner(t, m1) == Listing(ids)
  {
    var l := Listing(ids);
    hide Listing;
    assert Rewritten(s, m, ids) == s[..m.open + 1] + (l + s[m.close..]) by {
      assert s[..m.open + 1] == s[..m.open] + "[" && s[m.close..] == "]" + s[m.close + 1..];
    }
    hide ListAt, Rewritten;
  }

  /** Rewriting the list changes nothing outside its brackets, and the pattern finds the new list in its place. */
  lemma RewritingIsLocal(s: string, m: Span, ids: seq<TenantId>)
    requires Search(s, 0) == Some(m) && AllValid(ids)
    ensures var t, m1 := Rewritten(s, m, ids), Span(m.open, m.open + 1 + |Listing(ids)|);
            SameOutside(s, m, t, m1) && Search(t, 0) == Some(m1) && Inner(t, m1) == Listing(ids)
  {
    var t, m1 := Rewritten(s, m, ids), Span(m.open, m.open + 1 + |Listing(ids)|);
    assert ListAt(s, m);
    hide Search, ListAt, Moved, Listing, ValidId, SameOutside, Inner, Rewritten, FormatIds;
    ListingHasNoBracket(ids);
    Splice(s, m, ids);
    NewListStands(s, m, t, m1, ids);
    SearchMoves(s, m, t, m1, 0);
  }

  lemma NewListStands(s: string, m: Span, t: string, m1: Span, ids: seq<TenantId>)
    requires ListAt(s, m) && m1.open == m.open && SameOutside(s, m, t, m1)
    requires Inner(t, m1) == Listing(ids) && ']' !in Listing(ids)
    ensures Moved(s, m, t, m1)
  {
    forall k | 0 <= k <= m.open ensures s[k] == t[k] {
      assert s[..m.open + 1][k] == t[..m.open + 1][k];
    }
    forall k | m.open <= k < m1.close ensures t[k] != ']' {
      if k > m.open {
        assert t[k] == Listing(ids)[k - m.open - 1];
      }
    }
    assert t[m1.close] == t[m1.close..][0] == ']';
    FindStops(t, ']', m1.open, m1.close);
    assert t[m1.close + 1..] == t[m1.close..][1..] == s[m.close..][1..] == s[m.close + 1..];
  }

  /** What the file's list says. */
  function IdsIn(s: string): Option<seq<TenantId>> {
    var m := Search(s, 0);
    if m.None? then None else Some(ParseIds(Inner(s, m.value)))
  }

  // ---- which list is found ----

  const LINE := "tenant_ids = ["

  lemma NoEarlierBracket(s: string, n: nat, p: nat)
    requires n < |s| && s[n] == '[' && (forall k | 0 <= k < n :: s[k] != '[') && p <= n
    ensures Header(s, p).Some? ==> Header(s, p).value == n
  {
    assert Agree(s, s, n);
    HeaderAgrees(s, s, p, n);
  }

  lemma HeaderOfLine(s: string, a: nat)
    requires a + |LINE| <= |s| && s[a..a + |LINE|] == LINE
    ensures Header(s, a) == Some(a + 13)
  {
    forall k | 0 <= k < |LINE| ensures s[a + k] == LINE[k] {
      assert s[a..a + |LINE|][k] == s[a + k];
    }
    assert s[a..a + |KEY|] == LINE[..10] == KEY;
    assert Skip(s, a) == a;
    assert Skip(s, a + 10) == a + 11 by {
      assert Skip(s, a + 11) == a + 11;
    }
    assert Skip(s, a + 12) == a + 13 by {
      assert Skip(s, a + 13) == a + 13;
    }
  }

  lemma {:induction false} SearchReaches(s: string, m: Span, a: nat, p: nat)
    requires p <= a <= m.open && ListAt(s, m) && (forall k | 0 <= k < m.open :: s[k] != '[')
    requires LineStart(s, a) && Header(s, a) == Some(m.open)
    ensures Search(s, p) == Some(m)
    decreases a - p
  {
    NoEarlierBracket(s, m.open, p);
    assert MatchAt(s, p).Some? ==> MatchAt(s, p) == Some(m);
    if p < a && !(LineStart(s, p) && MatchAt(s, p).Some?) {
      hide MatchAt, ListAt, Header;
      SearchGoesOn(s, p);
      SearchReaches(s, m, a, p + 1);
    }
  }

  /** The list that is found is the one after `tenant_ids = `, on a line of its own, wherever it stands in the file, as
      long as no list comes before it; and what is read are the ids inside. */
  lemma FindsTheList(before: string, inner: string, after: string)
    requires before == "" || before[|before| - 1] == '\n'
    requires '[' !in before && ']' !in inner && (after == "" || after[0] == '\n')
    ensures var s := before + "tenant_ids = [" + inner + "]" + after;
            && Search(s, 0) == Some(Span(|before| + 13, |before| + 14 + |inner|))
            && IdsIn(s) == Some(ParseIds(inner))
  {
    Slices(before, inner, after);
    ListIsFound(before + LINE + inner + "]" + after, before, inner, after);
    hide Search, IdsIn, ParseIds;
  }

  lemma ListIsFound(s: string, before: string, inner: string, after: string)
    requires before == "" || before[|before| - 1] == '\n'
    requires '[' !in before && ']' !in inner && (after == "" || after[0] == '\n')
    requires var a, n := |before|, |inner|;
             && |s| == a + 15 + n + |after| && s[..a] == before && s[a..a + 14] == LINE
             && s[a + 14..a + 14 + n] == inner && s[a + 14 + n] == ']' && s[a + 15 + n..] == after
    ensures Search(s, 0) == Some(Span(|before| + 13, |before| + 14 + |inner|)) && IdsIn(s) == Some(ParseIds(inner))
  {
    var a := |before|;
    hide Header, ListAt, Search, ParseIds;
    forall k | 0 <= k < a ensures s[k] != '[' && s[k] == before[k] {
      assert s[..a][k] == before[k] && before[k] in before;
    }
    ListStands(s, a, inner, after);
    HeaderOfLine(s, a);
    SearchReaches(s, Span(a + 13, a + 14 + |inner|), a, 0);
  }

  lemma Slices(before: string, inner: string, after: string)
    ensures var a, n, s := |before|, |inner|, before + LINE + inner + "]" + after;
            && |s| == a + 15 + n + |after| && s[..a] == before && s[a..a + 14] == LINE
            && s[a + 14..a + 14 + n] == inner && s[a + 14 + n] == ']' && s[a + 15 + n..] == after
  {
    var t := LINE + inner + "]" + after;
    assert before + LINE + inner + "]" + after == before + t;
    assert t[..14] == LINE && t[14..14 + |inner|] == inner;
  }

  lemma ListStands(s: string, a: nat, inner: string, after: string)
    requires |s| == a + 15 + |inner| + |after| && s[a..a + 14] == LINE && ']' !in inner
    requires s[a + 14..a + 14 + |inner|] == inner && s[a + 14 + |inner|] == ']' && s[a + 15 + |inner|..] == after
    requires after == "" || after[0] == '\n'
    ensures var m := Span(a + 13, a + 14 + |inner|);
            ListAt(s, m) && Inner(s, m) == inner && forall k | a <= k < m.open :: s[k] != '['
  {
    var m := Span(a + 13, a + 14 + |inner|);
    forall k | a <= k <= m.open ensures s[k] == LINE[k - a] {
      assert s[a..a + 14][k - a] == s[k];
    }
    forall k | m.open <= k < m.close ensures s[k] != ']' {
      if k > m.open {
        assert s[a + 14..a + 14 + |inner|][k - m.open - 1] == s[k] && inner[k - m.open - 1] in inner;
      }
    }
    FindStops(s, ']', m.open, m.close);
  }

  /** Without that word nothing is found. */
  lemma {:induction false} NothingToFind(s: string, p: nat)
    requires p <= |s| && forall a, b | 0 <= a <= b <= |s| :: s[a..b] != "tenant_ids"
    ensures Search(s, p).None?
    decreases |s| - p
  {
    assert Header(s, p).None? by {
      assert !KeyAt(s, Skip(s, p));
    }
    if p < |s| {
      NothingToFind(s, p + 1);
    }
  }

  // ---- the operation ----

  class VarFile {
    var text: string

    constructor (initial: string)
      ensures text == initial
    {
      text := initial;
    }

    /** Appends the tenant to the list unless it is there. The ids already read stay, in order; the new one comes
        last; everything outside the brackets is kept; calling again changes nothing. */
    method EnsureTenant(x: TenantId) returns (r: Outcome<bool>)
      requires ValidId(x)
      modifies this
      ensures r.Raised? <==> IdsIn(old(text)).None?
      ensures r.Raised? ==> r.error == OnboardError && text == old(text)
      ensures r.Returned? ==> (r.value <==> x !in IdsIn(old(text)).value)
      ensures r.Returned? && !r.value ==> text == old(text)
      ensures r.Returned? && r.value ==>
                && IdsIn(text) == Some(IdsIn(old(text)).value + [x])
                && SameOutside(old(text), Search(old(text), 0).value, text, Search(text, 0).value)
      ensures r.Returned? ==> IdsIn(text).Some? && x in IdsIn(text).value
    {
      var found := Search(text, 0);
      if found.None? {
        return Raised(OnboardError);
      }
      var ids := ParseIds(Inner(text, found.value));
      if x in ids {
        return Returned(false);
      }
      ParsedIdsAreValid(Inner(text, found.value));
      ids := ids + [x];
      RewritingIsLocal(text, found.value, ids);
      RoundTrip(ids);
      hide Rewritten, FormatIds, Listing, ParseIds, ListAt, Search, ValidId, Inner, SameOutside;
      text := Rewritten(text, found.value, ids);
      r := Returned(true);
    }
  }
}
