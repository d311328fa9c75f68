/** Building the filtered task listing query, with numbered placeholders. */
module TaskQuery {
  import opened Support

  // ---- Splitting filter values ----

  /** The characters str.strip() removes. */
  predicate Space(c: char) {
    var u := c as int;
    || 0x09 <= u <= 0x0D || 0x1C <= u <= 0x20 || u == 0x85 || u == 0xA0 || u == 0x1680
    || 0x2000 <= u <= 0x200A || u == 0x2028 || u == 0x2029 || u == 0x202F || u == 0x205F || u == 0x3000
  }

  function StripLeft(s: string): string {
    if s != "" && Space(s[0]) then StripLeft(s[1..]) else s
  }

  function StripRight(s: string): string {
    if s != "" && Space(s[|s| - 1]) then StripRight(s[..|s| - 1]) else s
  }

  function Strip(s: string): string {
    StripRight(StripLeft(s))
  }

  /** str.split(","): never empty. */
  function Split(s: string): (r: seq<string>)
    ensures r != []
  {
    if s == "" then [""]
    else
      var rest := Split(s[1..]);
      if s[0] == ',' then [""] + rest else [[s[0]] + rest[0]] + rest[1..]
  }

  /** The stripped, non-blank values of a comma-separated filter. */
  function NonBlank(pieces: seq<string>): seq<string> {
    if pieces == [] then []
    else
      NonBlank(pieces[..|pieces| - 1])
      + if Strip(pieces[|pieces| - 1]) != "" then [Strip(pieces[|pieces| - 1])] else []
  }

  function Values(s: string): seq<string> {
    NonBlank(Split(s))
  }

  function Joined(pieces: seq<string>): string
    requires pieces != []
  {
    if |pieces| == 1 then pieces[0] else pieces[0] + "," + Joined(pieces[1..])
  }

  lemma JoinedStep(piece: string, rest: seq<string>)
    requires rest != []
    ensures Joined([piece] + rest) == piece + "," + Joined(rest)
  {
    assert ([piece] + rest)[1..] == rest;
  }

  lemma JoinedAlone(piece: string)
    ensures Joined([piece]) == piece
  {
  }

  lemma JoinedGrows(c: char, pieces: seq<string>)
    requires pieces != []
    ensures Joined([[c] + pieces[0]] + pieces[1..]) == [c] + Joined(pieces)
  {
    hide Joined;
    var first, rest := pieces[0], pieces[1..];
    assert pieces == [first] + rest;
    if rest == [] {
      JoinedAlone(first);
      JoinedAlone([c] + first);
      assert [[c] + first] + rest == [[c] + first] && pieces == [first];
    } else {
      JoinedStep(first, rest);
      JoinedStep([c] + first, rest);
      assert [c] + first + "," + Joined(rest) == [c] + (first + "," + Joined(rest));
    }
  }

  /** The pieces contain no comma and joined with commas give the text back. */
  lemma {:induction false} SplitUndoesJoin(s: string)
    ensures Joined(Split(s)) == s
    ensures forall i :: 0 <= i < |Split(s)| ==> ',' !in Split(s)[i]
  {
    hide Joined;
    if s == "" {
      JoinedAlone("");
    } else {
      SplitUndoesJoin(s[1..]);
      JoinedStep("", Split(s[1..]));
      JoinedGrows(s[0], Split(s[1..]));
      assert s == [s[0]] + s[1..];
    }
  }

  lemma {:induction false} SplitOfPiece(p: string, rest: string)
    requires ',' !in p
    ensures Split(p) == [p] && Split(p + "," + rest) == [p] + Split(rest)
  {
    var s := p + "," + rest;
    if p == "" {
      assert s[1..] == rest;
    } else {
      SplitOfPiece(p[1..], rest);
      assert s[1..] == p[1..] + "," + rest && s[0] == p[0] && p == [p[0]] + p[1..];
    }
  }

  /** Pieces without commas, joined, are split into themselves. */
  lemma {:induction false} JoinUndoesSplit(pieces: seq<string>)
    requires pieces != [] && forall i :: 0 <= i < |pieces| ==> ',' !in pieces[i]
    ensures Split(Joined(pieces)) == pieces
  {
    if |pieces| == 1 {
      SplitOfPiece(pieces[0], "");
    } else {
      JoinUndoesSplit(pieces[1..]);
      SplitOfPiece(pieces[0], Joined(pieces[1..]));
    }
  }

  predicate Blank(s: string) {
    forall i :: 0 <= i < |s| ==> Space(s[i])
  }

  lemma {:induction false} StripLeftSplits(s: string) returns (w: string)
    ensures Blank(w) && s == w + StripLeft(s) && (StripLeft(s) != "" ==> !Space(StripLeft(s)[0]))
  {
    w := "";
    if s != "" && Space(s[0]) {
      var v := StripLeftSplits(s[1..]);
      w := [s[0]] + v;
    }
  }

  lemma {:induction false} StripRightSplits(s: string) returns (w: string)
    ensures Blank(w) && s == StripRight(s) + w && (StripRight(s) != "" ==> !Space(StripRight(s)[|StripRight(s)| - 1]))
  {
    w := "";
    if s != "" && Space(s[|s| - 1]) {
      var v := StripRightSplits(s[..|s| - 1]);
      w := v + [s[|s| - 1]];
    }
  }

  /** Stripping removes exactly the blank ends. */
  lemma StripTrims(s: string) returns (left: string, right: string)
    ensures Blank(left) && Blank(right) && s == left + Strip(s) + right
    ensures Strip(s) != "" ==> !Space(Strip(s)[0]) && !Space(Strip(s)[|Strip(s)| - 1])
    ensures Strip(s) == "" <==> Blank(s)
  {
    hide Space;
    left := StripLeftSplits(s);
    right := StripRightSplits(StripLeft(s));
    assert Strip(s) != "" ==> Strip(s)[0] == StripLeft(s)[0] && Strip(s)[0] == s[|left|];
    assert Strip(s) == "" ==> s == left + right;
  }

  lemma {:induction false} NonBlankIsFilter(pieces: seq<string>, v: string)
    ensures v in NonBlank(pieces) <==> v != "" && exists i :: 0 <= i < |pieces| && Strip(pieces[i]) == v
  {
    hide Strip;
    if pieces != [] {
      var init, last := pieces[..|pieces| - 1], pieces[|pieces| - 1];
      NonBlankIsFilter(init, v);
      assert forall i :: 0 <= i < |init| ==> pieces[i] == init[i];
      assert (exists i :: 0 <= i < |pieces| && Strip(pieces[i]) == v)
        <==> Strip(last) == v || (exists i :: 0 <= i < |init| && Strip(init[i]) == v);
    }
  }

  // ---- The query ----

  datatype Column = RepoUrl | Status | Topology | Outcome

  /** One condition; n and ns are placeholder numbers. */
  datatype Condition = Equals(col: Column, n: nat) | ILike(col: Column, n: nat) | OneOf(col: Column, ns: seq<nat>)

  datatype Arg = Text(text: string) | Number(number: int)

  datatype Query = Query(conditions: seq<Condition>, args: seq<Arg>, limitAt: nat, offsetAt: nat)

  /** repoUrl is already canonical. */
  datatype Filters = Filters(
    repoUrl: Option<string>, repo: Option<string>, status: Option<string>, topology: Option<string>,
    outcome: Option<string>, limit: int, offset: int)

  /** A task row with the outcomes joined to it. */
  datatype TaskRow = TaskRow(repoUrl: string, status: string, topology: string, outcomes: set<string>)

  function PlaceholdersOf(c: Condition): seq<nat> {
    if c.OneOf? then c.ns else [c.n]
  }

  function Placeholders(cs: seq<Condition>): seq<nat> {
    if cs == [] then [] else Placeholders(cs[..|cs| - 1]) + PlaceholdersOf(cs[|cs| - 1])
  }

  function Numbered(from: nat, count: nat): seq<nat> {
    seq(count, i requires 0 <= i < count => from + i)
  }

  // ---- What a query selects ----

  function Bound(args: seq<Arg>, n: nat): string {
    if 1 <= n <= |args| && args[n - 1].Text? then args[n - 1].text else ""
  }

  predicate HasValue(row: TaskRow, col: Column, v: string) {
    match col
    case RepoUrl => row.repoUrl == v
    case Status => row.status == v
    case Topology => row.topology == v
    case Outcome => v in row.outcomes
  }

  function Lower(c: char): char {
    if 'A' <= c <= 'Z' then (c as int + 32) as char else c
  }

  function Lowered(s: string): (r: string)
    ensures |r| == |s| && forall i :: 0 <= i < |s| ==> r[i] == Lower(s[i])
  {
    seq(|s|, i requires 0 <= i < |s| => Lower(s[i]))
  }

  /** SQL LIKE: % any text, _ any character, backslash takes the next character literally. */
  predicate Like(p: string, t: string)
    decreases |p| + |t|
  {
    if p == "" then t == ""
    else if p[0] == '%' then Like(p[1..], t) || (t != "" && Like(p, t[1..]))
    else if p[0] == '\\' && |p| > 1 then t != "" && t[0] == p[1] && Like(p[2..], t[1..])
    else t != "" && (p[0] == '_' || t[0] == p[0]) && Like(p[1..], t[1..])
  }

  predicate Holds(c: Condition, args: seq<Arg>, row: TaskRow) {
    match c
    case Equals(col, n) => HasValue(row, col, Bound(args, n))
    case ILike(_, n) => Like(Lowered(Bound(args, n)), Lowered(row.repoUrl))
    case OneOf(col, ns) => exists i :: 0 <= i < |ns| && HasValue(row, col, Bound(args, ns[i]))
  }

  predicate AllHold(cs: seq<Condition>, args: seq<Arg>, row: TaskRow) {
    forall i :: 0 <= i < |cs| ==> Holds(cs[i], args, row)
  }

  predicate InList(row: TaskRow, col: Column, filter: Option<string>) {
    filter.Some? && Values(filter.value) != [] ==>
      exists i :: 0 <= i < |Values(filter.value)| && HasValue(row, col, Values(filter.value)[i])
  }

  /** A row passes a comma-separated filter iff every piece is blank or it has one of the others, stripped. */
  lemma ListFilterMeans(row: TaskRow, col: Column, pieces: seq<string>)
    requires pieces != [] && forall i :: 0 <= i < |pieces| ==> ',' !in pieces[i]
    ensures InList(row, col, Some(Joined(pieces)))
            <==> || (forall i :: 0 <= i < |pieces| ==> Blank(pieces[i]))
                 || (exists i :: 0 <= i < |pieces| && !Blank(pieces[i]) && HasValue(row, col, Strip(pieces[i])))
  {
    hide Split, NonBlank, HasValue, Strip, Blank, Joined;
    var values := Values(Joined(pieces));
    JoinUndoesSplit(pieces);
    forall i | 0 <= i < |pieces| ensures Blank(pieces[i]) <==> Strip(pieces[i]) == "" {
      var _, _ := StripTrims(pieces[i]);
    }
    forall v ensures v in values <==> v != "" && exists i :: 0 <= i < |pieces| && Strip(pieces[i]) == v {
      NonBlankIsFilter(pieces, v);
    }
    assert InList(row, col, Some(Joined(pieces))) <==> values == [] || exists v :: v in values && HasValue(row, col, v);
    assert forall i :: 0 <= i < |pieces| && !Blank(pieces[i]) ==> Strip(pieces[i]) in values;
    assert values == [] <==> forall i :: 0 <= i < |pieces| ==> Blank(pieces[i]) by {
      if values != [] {
        assert values[0] in values;
        var i :| 0 <= i < |pieces| && Strip(pieces[i]) == values[0];
        assert !Blank(pieces[i]);
      }
    }
    assert (exists v :: v in values && HasValue(row, col, v))
      <==> (exists i :: 0 <= i < |pieces| && !Blank(pieces[i]) && HasValue(row, col, Strip(pieces[i])));
  }

  function Pattern(repo: string): string {
    "%" + Strip(repo) + "%"
  }

  /** The conjunction of the active filters. */
  predicate Selected(f: Filters, row: TaskRow) {
    && (f.repoUrl.Some? ==> row.repoUrl == f.repoUrl.value)
    && (f.repo.Some? && Strip(f.repo.value) != "" ==> Like(Lowered(Pattern(f.repo.value)), Lowered(row.repoUrl)))
    && InList(row, Status, f.status)
    && InList(row, Topology, f.topology)
    && (f.outcome.Some? ==> f.outcome.value in row.outcomes)
  }

  // ---- Building it ----

  /** While building: the next number is one past the arguments, and the placeholders so far are 1, 2, ... in order. */
  predicate Numbering(cs: seq<Condition>, args: seq<Arg>, idx: nat) {
    idx == |args| + 1 && Placeholders(cs) == Numbered(1, |args|)
  }

  /** A further condition on fresh arguments leaves the earlier ones as they were. */
  lemma AddCondition(cs: seq<Condition>, args: seq<Arg>, idx: nat, c: Condition, more: seq<Arg>)
    requires Numbering(cs, args, idx) && PlaceholdersOf(c) == Numbered(idx, |more|)
    ensures Numbering(cs + [c], args + more, idx + |more|)
    ensures forall row :: AllHold(cs + [c], args + more, row) <==> AllHold(cs, args, row) && Holds(c, args + more, row)
  {
    assert (cs + [c])[..|cs|] == cs;
    forall row, i | 0 <= i < |cs| ensures Holds(cs[i], args + more, row) == Holds(cs[i], args, row) {
      EarlierPlaceholders(cs, |args|, i);
      SameBindings(cs[i], args, more, row);
    }
    forall row ensures AllHold(cs + [c], args + more, row) <==> AllHold(cs, args, row) && Holds(c, args + more, row) {
      assert (cs + [c])[|cs|] == c;
      assert forall i :: 0 <= i < |cs| ==> (cs + [c])[i] == cs[i];
    }
  }

  lemma {:induction false} EarlierPlaceholders(cs: seq<Condition>, n: nat, i: nat)
    requires i < |cs| && forall k :: 0 <= k < |Placeholders(cs)| ==> 1 <= Placeholders(cs)[k] <= n
    ensures forall k :: 0 <= k < |PlaceholdersOf(cs[i])| ==> 1 <= PlaceholdersOf(cs[i])[k] <= n
  {
    var init, last := cs[..|cs| - 1], cs[|cs| - 1];
    var all := Placeholders(cs);
    if i < |init| {
      assert forall k :: 0 <= k < |Placeholders(init)| ==> Placeholders(init)[k] == all[k];
      EarlierPlaceholders(init, n, i);
    } else {
      assert forall k :: 0 <= k < |PlaceholdersOf(last)| ==> PlaceholdersOf(last)[k] == all[|Placeholders(init)| + k];
    }
  }

  lemma SameBindings(c: Condition, args: seq<Arg>, more: seq<Arg>, row: TaskRow)
    requires forall k :: 0 <= k < |PlaceholdersOf(c)| ==> 1 <= PlaceholdersOf(c)[k] <= |args|
    ensures Holds(c, args + more, row) == Holds(c, args, row)
  {
    if c.OneOf? {
      assert PlaceholdersOf(c) == c.ns;
      assert forall i :: 0 <= i < |c.ns| ==> Bound(args + more, c.ns[i]) == Bound(args, c.ns[i]);
    } else {
      assert PlaceholdersOf(c)[0] == c.n;
    }
  }

  function Texts(values: seq<string>): seq<Arg> {
    seq(|values|, i requires 0 <= i < |values| => Text(values[i]))
  }

  lemma OneOfFresh(args: seq<Arg>, col: Column, values: seq<string>, row: TaskRow)
    requires values != []
    ensures Holds(OneOf(col, Numbered(|args| + 1, |values|)), args + Texts(values), row)
            <==> exists i :: 0 <= i < |values| && HasValue(row, col, values[i])
    ensures |values| == 1 ==>
              (Holds(Equals(col, |args| + 1), args + Texts(values), row) <==> HasValue(row, col, values[0]))
  {
    var ns, all := Numbered(|args| + 1, |values|), args + Texts(values);
    assert forall i :: 0 <= i < |values| ==> Bound(all, ns[i]) == values[i];
    assert Bound(all, |args| + 1) == values[0];
  }

  /** A comma-separated filter: nothing, one equality, or an IN list. */
  method AppendValues(col: Column, filter: Option<string>, cs: seq<Condition>, args: seq<Arg>, idx: nat)
    returns (cs': seq<Condition>, args': seq<Arg>, idx': nat)
    requires Numbering(cs, args, idx)
    ensures Numbering(cs', args', idx')
    ensures forall row :: AllHold(cs', args', row) <==> AllHold(cs, args, row) && InList(row, col, filter)
  {
    hide AllHold, Holds, Numbering, Values;
    cs', args', idx' := cs, args, idx;
    if filter.Some? {
      var values := Values(filter.value);
      if values != [] {
        var c := if |values| == 1 then Equals(col, idx) else OneOf(col, Numbered(idx, |values|));
        NumberingFacts(cs, args, idx);
        assert PlaceholdersOf(c) == Numbered(idx, |Texts(values)|);
        AddCondition(cs, args, idx, c, Texts(values));
        forall row ensures Holds(c, args + Texts(values), row) <==> InList(row, col, filter) {
          OneOfFresh(args, col, values, row);
        }
        cs' := cs' + [c];
        args' := args' + Texts(values);
        idx' := idx' + |values|;
      }
    }
  }

  lemma NumberingFacts(cs: seq<Condition>, args: seq<Arg>, idx: nat)
    requires Numbering(cs, args, idx)
    ensures idx == |args| + 1
  {
  }

  /** One more condition on one text argument. */
  method AppendText(c: Condition, text: string, cs: seq<Condition>, args: seq<Arg>, idx: nat)
    returns (cs': seq<Condition>, args': seq<Arg>, idx': nat)
    requires Numbering(cs, args, idx) && !c.OneOf? && c.n == idx
    ensures Numbering(cs', args', idx')
    ensures forall row :: AllHold(cs', args', row) <==> AllHold(cs, args, row) && Holds(c, args', row)
    ensures Bound(args', idx) == text
  {
    hide AllHold, Holds, Numbering;
    NumberingFacts(cs, args, idx);
    assert PlaceholdersOf(c) == Numbered(idx, 1);
    AddCondition(cs, args, idx, c, [Text(text)]);
    cs', args', idx' := cs + [c], args + [Text(text)], idx + 1;
  }

  /**
   * Placeholders are exactly $1..$n, limit and offset last; the query selects the conjunction of the active
   * filters.
   */
  method ListTasks(f: Filters) returns (q: Query)
    ensures var all := Placeholders(q.conditions) + [q.limitAt, q.offsetAt];
            |all| == |q.args| && forall i :: 0 <= i < |all| ==> all[i] == i + 1
    ensures |q.args| >= 2 && q.args[|q.args| - 2..] == [Number(f.limit), Number(f.offset)]
    ensures forall row :: AllHold(q.conditions, q.args, row) <==> Selected(f, row)
  {
    hide AllHold, InList, Like, Numbering, Bound, Lowered, Pattern;
    var conditions: seq<Condition>, args: seq<Arg>, idx: nat := [], [], 1;
    StartNumbering();
    if f.repoUrl.Some? {
      conditions, args, idx := AppendText(Equals(RepoUrl, idx), f.repoUrl.value, conditions, args, idx);
    }
    if f.repo.Some? && Strip(f.repo.value) != "" {
      conditions, args, idx := AppendText(ILike(RepoUrl, idx), Pattern(f.repo.value), conditions, args, idx);
    }
    conditions, args, idx := AppendValues(Status, f.status, conditions, args, idx);
    conditions, args, idx := AppendValues(Topology, f.topology, conditions, args, idx);
    if f.outcome.Some? {
      conditions, args, idx := AppendText(Equals(Outcome, idx), f.outcome.value, conditions, args, idx);
    }
    Paging(conditions, args, idx, [Number(f.limit), Number(f.offset)]);
    return Query(conditions, args + [Number(f.limit), Number(f.offset)], idx, idx + 1);
  }

  lemma StartNumbering()
    ensures Numbering([], [], 1) && forall row :: AllHold([], [], row)
  {
  }

  lemma Paging(cs: seq<Condition>, args: seq<Arg>, idx: nat, paging: seq<Arg>)
    requires Numbering(cs, args, idx) && |paging| == 2
    ensures Placeholders(cs) + [idx, idx + 1] == Numbered(1, |args + paging|)
    ensures forall row :: AllHold(cs, args + paging, row) <==> AllHold(cs, args, row)
  {
    forall row, i | 0 <= i < |cs| ensures Holds(cs[i], args + paging, row) == Holds(cs[i], args, row) {
      EarlierPlaceholders(cs, |args|, i);
      SameBindings(cs[i], args, paging, row);
    }
  }

  // ---- The repo filter and substring search ----

  predicate Wildcard(c: char) {
    c == '%' || c == '_' || c == '\\'
  }

  predicate Plain(x: string) {
    forall i :: 0 <= i < |x| ==> !Wildcard(x[i])
  }

  ghost predicate Contains(t: string, x: string) {
    exists i :: 0 <= i <= |t| && x <= t[i..]
  }

  lemma {:induction false} AnyText(t: string)
    ensures Like("%", t)
  {
    if t != "" {
      AnyText(t[1..]);
    } else {
      assert Like("%"[1..], t);
    }
  }

  lemma {:induction false} LeadingPercent(p: string, t: string)
    ensures Like("%" + p, t) <==> exists i :: 0 <= i <= |t| && Like(p, t[i..])
    decreases |t|
  {
    assert ("%" + p)[1..] == p && t[0..] == t;
    if t != "" {
      LeadingPercent(p, t[1..]);
      forall i | 0 <= i <= |t[1..]| ensures t[1..][i..] == t[i + 1..] {
      }
      if i :| 1 <= i <= |t| && Like(p, t[i..]) {
        assert t[1..][i - 1..] == t[i..];
      }
    }
  }

  lemma {:induction false} LiteralPrefix(x: string, t: string)
    requires Plain(x)
    ensures Like(x + "%", t) <==> x <= t
    decreases |x|
  {
    if x == "" {
      assert x + "%" == "%";
      AnyText(t);
    } else {
      assert (x + "%")[1..] == x[1..] + "%";
      if t != "" {
        LiteralPrefix(x[1..], t[1..]);
        assert x == [x[0]] + x[1..] && t == [t[0]] + t[1..];
      }
    }
  }

  /** A text the pattern finds although it does not contain a filter with wildcards. */
  function Witness(x: string): string {
    if x == "" then ""
    else if x[0] == '%' then Witness(x[1..])
    else if x[0] == '_' then "a" + Witness(x[1..])
    else if x[0] != '\\' then [x[0]] + Witness(x[1..])
    else if |x| == 1 then "%"
    else [x[1]] + Witness(x[2..])
  }

  lemma {:induction false} WitnessFound(x: string)
    ensures Like(x + "%", Witness(x))
    decreases |x|
  {
    var p, t := x + "%", Witness(x);
    if x == "" {
      assert p == "%";
      AnyText(t);
    } else if x[0] == '\\' {
      if |x| > 1 {
        WitnessFound(x[2..]);
        assert p[2..] == x[2..] + "%" && t[1..] == Witness(x[2..]);
      } else {
        assert p == "\\%" && p[2..] == "" && t[1..] == "";
      }
    } else {
      WitnessFound(x[1..]);
      assert p[1..] == x[1..] + "%";
      assert x[0] != '%' ==> t[1..] == Witness(x[1..]);
    }
  }

  lemma {:induction false} WitnessDiffers(x: string)
    ensures |Witness(x)| <= |x| && (!Plain(x) ==> Witness(x) != x)
    decreases |x|
  {
    if x != "" {
      if x[0] == '\\' {
        if |x| > 1 {
          WitnessDiffers(x[2..]);
        }
      } else {
        WitnessDiffers(x[1..]);
        if x[0] != '%' {
          assert Witness(x)[1..] == Witness(x[1..]);
        }
        if !Wildcard(x[0]) && !Plain(x) {
          assert !Plain(x[1..]);
        }
      }
    }
  }

  lemma {:induction false} WitnessIsLower(y: string)
    requires Lowered(y) == y
    ensures Lowered(Witness(y)) == Witness(y)
    decreases |y|
  {
    assert forall i :: 0 <= i < |y| ==> Lower(y[i]) == y[i];
    if y != "" {
      if y[0] == '\\' && |y| > 1 {
        WitnessIsLower(y[2..]);
      } else if y[0] != '\\' {
        WitnessIsLower(y[1..]);
      }
    }
  }

  /** LIKE with percent signs around a text without wildcards finds exactly the texts that contain it. */
  lemma PlainFindsSubstrings(x: string, t: string)
    requires Plain(x)
    ensures Like("%" + x + "%", t) <==> Contains(t, x)
  {
    hide Like;
    assert "%" + x + "%" == "%" + (x + "%");
    LeadingPercent(x + "%", t);
    forall i | 0 <= i <= |t| ensures Like(x + "%", t[i..]) <==> x <= t[i..] {
      LiteralPrefix(x, t[i..]);
    }
  }

  /** The repo filter is a case-insensitive substring search exactly when it contains no %, no _ and no backslash. */
  lemma RepoFilterIsSubstringIff(repo: string)
    ensures (forall url :: Like(Lowered(Pattern(repo)), Lowered(url)) <==> Contains(Lowered(url), Lowered(Strip(repo))))
            <==> Plain(Strip(repo))
  {
    var x := Strip(repo);
    var y := Lowered(x);
    assert Lowered(Pattern(repo)) == "%" + y + "%";
    assert Plain(y) <==> Plain(x) by {
      assert forall i :: 0 <= i < |x| ==> (Wildcard(y[i]) <==> Wildcard(x[i]));
    }
    if Plain(x) {
      forall url: string {
        PlainFindsSubstrings(y, Lowered(url));
      }
    } else {
      var t := Witness(y);
      assert Lowered(y) == y;
      WitnessIsLower(y);
      WitnessFound(y);
      WitnessDiffers(y);
      assert "%" + y + "%" == "%" + (y + "%") && t[0..] == t;
      LeadingPercent(y + "%", t);
      assert Like(Lowered(Pattern(repo)), Lowered(t));
      assert !Contains(t, y);
    }
  }
}
