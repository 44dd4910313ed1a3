// Keys of agent-loop outputs, "{uid}_{session}_{index}": printing, splitting
// from the right, and the two selections of each session's final row.

module SessionKeys {
  import opened Results

  // ---------- decimal numbers ----------

  function DigitChar(d: nat): char
    requires d < 10
  {
    '0' + d as char
  }

  function Decimal(n: nat): string {
    if n < 10 then [DigitChar(n)] else Decimal(n / 10) + [DigitChar(n % 10)]
  }

  predicate IsDigits(s: string) {
    forall i :: 0 <= i < |s| ==> '0' <= s[i] <= '9'
  }

  function NatOf(s: string): nat
    requires IsDigits(s)
  {
    if s == [] then 0 else 10 * NatOf(s[..|s| - 1]) + (s[|s| - 1] - '0') as nat
  }

  /** `int(s)`: an optional sign and at least one digit. */
  function ParseInt(s: string): Result<int> {
    if s != [] && IsDigits(s) then Ok(NatOf(s))
    else if |s| > 1 && s[0] == '-' && IsDigits(s[1..]) then Ok(-(NatOf(s[1..]) as int))
    else if |s| > 1 && s[0] == '+' && IsDigits(s[1..]) then Ok(NatOf(s[1..]))
    else Err("ValueError")
  }

  lemma {:induction false} DecimalRoundTrip(n: nat)
    ensures Decimal(n) != [] && IsDigits(Decimal(n)) && NatOf(Decimal(n)) == n
  {
    if n >= 10 {
      DecimalRoundTrip(n / 10);
      var s := Decimal(n);
      assert s[..|s| - 1] == Decimal(n / 10);
    }
  }

  /** Signs and leading zeros are read as Python reads them. */
  lemma {:induction false} SignedNumbers(n: nat)
    ensures ParseInt(['-'] + Decimal(n)) == Ok(-(n as int)) && ParseInt(['+'] + Decimal(n)) == Ok(n)
    ensures ParseInt(['0'] + Decimal(n)) == Ok(n)
  {
    DecimalRoundTrip(n);
    var s := Decimal(n);
    assert (['-'] + s)[1..] == s && (['+'] + s)[1..] == s && (['-'] + s)[0] == '-' && (['+'] + s)[0] == '+';
    LeadingZero(s);
    hide Decimal;
  }

  lemma {:induction false} LeadingZero(s: string)
    requires IsDigits(s)
    ensures IsDigits(['0'] + s) && NatOf(['0'] + s) == NatOf(s)
  {
    var z := ['0'] + s;
    if s == [] {
      assert z[..0] == [];
    } else {
      LeadingZero(s[..|s| - 1]);
      assert z[..|z| - 1] == ['0'] + s[..|s| - 1];
    }
  }

  // ---------- splitting from the right ----------

  function Join(a: string, b: string): string {
    a + "_" + b
  }

  function LastUnderscore(s: string): Option<nat> {
    if s == [] then None
    else if s[|s| - 1] == '_' then Some(|s| - 1)
    else LastUnderscore(s[..|s| - 1])
  }

  lemma {:induction false} LastUnderscoreBound(s: string)
    ensures LastUnderscore(s).Some? ==> LastUnderscore(s).value < |s|
  {
    if s != [] && s[|s| - 1] != '_' {
      LastUnderscoreBound(s[..|s| - 1]);
    }
  }

  /** `s.rsplit("_", n)` */
  function RSplit(s: string, n: nat): seq<string>
    decreases n
  {
    if n == 0 || LastUnderscore(s).None? then [s]
    else
      LastUnderscoreBound(s);
      var i := LastUnderscore(s).value;
      RSplit(s[..i], n - 1) + [s[i + 1..]]
  }

  function Joined(fields: seq<string>): string {
    if fields == [] then ""
    else if |fields| == 1 then fields[0]
    else Join(Joined(fields[..|fields| - 1]), fields[|fields| - 1])
  }

  lemma {:induction false} NoneAfterLast(s: string)
    ensures LastUnderscore(s).None? ==> '_' !in s
    ensures LastUnderscore(s).Some? ==>
              var i := LastUnderscore(s).value; i < |s| && s == Join(s[..i], s[i + 1..]) && '_' !in s[i + 1..]
  {
    if s != [] && s[|s| - 1] != '_' {
      var front := s[..|s| - 1];
      NoneAfterLast(front);
      if LastUnderscore(s).Some? {
        var i := LastUnderscore(s).value;
        assert s[i + 1..] == front[i + 1..] + [s[|s| - 1]] && s[..i] == front[..i];
      }
    }
  }

  /** At most n underscores from the right separate the fields; the fields joined again are the string, and the first
      one keeps an underscore only if there are n others. */
  lemma {:induction false} RSplitExactly(s: string, n: nat)
    ensures 1 <= |RSplit(s, n)| <= n + 1 && Joined(RSplit(s, n)) == s
    ensures forall i :: 1 <= i < |RSplit(s, n)| ==> '_' !in RSplit(s, n)[i]
    ensures '_' in RSplit(s, n)[0] ==> |RSplit(s, n)| == n + 1
    decreases n
  {
    NoneAfterLast(s);
    if n > 0 && LastUnderscore(s).Some? {
      var i := LastUnderscore(s).value;
      RSplitExactly(s[..i], n - 1);
      assert RSplit(s, n)[..|RSplit(s, n)| - 1] == RSplit(s[..i], n - 1);
    }
  }

  lemma {:induction false} LastUnderscoreJoin(a: string, b: string)
    requires '_' !in b
    ensures LastUnderscore(Join(a, b)) == Some(|a|)
  {
    var s := Join(a, b);
    if b == [] {
      assert s[|s| - 1] == '_';
    } else {
      var b' := b[..|b| - 1];
      assert s[..|s| - 1] == Join(a, b');
      assert s[|s| - 1] == b[|b| - 1];
      LastUnderscoreJoin(a, b');
    }
  }

  lemma {:induction false} RSplitJoin(a: string, b: string, n: nat)
    requires '_' !in b && 0 < n
    ensures RSplit(Join(a, b), n) == RSplit(a, n - 1) + [b]
  {
    LastUnderscoreJoin(a, b);
    assert Join(a, b)[..|a|] == a && Join(a, b)[|a| + 1..] == b;
  }

  function Print(uid: string, session: nat, index: nat): string {
    Join(Join(uid, Decimal(session)), Decimal(index))
  }

  lemma {:induction false} DigitsNoUnderscore(s: string)
    requires IsDigits(s)
    ensures '_' !in s
  {
  }

  /** Splitting twice from the right inverts the printer, for every uid, underscores included. */
  lemma {:induction false} RSplitInvertsPrint(uid: string, session: nat, index: nat)
    ensures RSplit(Print(uid, session, index), 2) == [uid, Decimal(session), Decimal(index)]
    ensures ParseInt(Decimal(session)) == Ok(session) && ParseInt(Decimal(index)) == Ok(index)
  {
    DecimalRoundTrip(session);
    DecimalRoundTrip(index);
    DigitsNoUnderscore(Decimal(session));
    DigitsNoUnderscore(Decimal(index));
    RSplitJoin(Join(uid, Decimal(session)), Decimal(index), 2);
    RSplitJoin(uid, Decimal(session), 1);
  }

  // ---------- rows, sessions and final rows ----------

  datatype Row = Row(session: string, index: int)

  /** What both loops read off a key of three fields. */
  function ParseKey(key: string): Result<Row> {
    var fields := RSplit(key, 2);
    if |fields| != 3 then Err("Unexpected key format")
    else
      var index :- ParseInt(fields[2]);
      Ok(Row(Join(fields[0], fields[1]), index))
  }

  lemma {:induction false} SplitSession(uid: string, session: nat)
    ensures RSplit(Join(uid, Decimal(session)), 1) == [uid, Decimal(session)] && ParseInt(Decimal(session)) == Ok(session)
  {
    DecimalRoundTrip(session);
    DigitsNoUnderscore(Decimal(session));
    RSplitJoin(uid, Decimal(session), 1);
  }

  /** Two outputs are rows of one session exactly when uid and session number agree. */
  lemma {:induction false} SessionsNotConfused(uid: string, session: nat, index: nat, uid': string, session': nat,
                                               index': nat)
    ensures ParseKey(Print(uid, session, index)) == Ok(Row(Join(uid, Decimal(session)), index))
    ensures Join(uid, Decimal(session)) == Join(uid', Decimal(session')) <==> uid == uid' && session == session'
  {
    RSplitInvertsPrint(uid, session, index);
    SplitSession(uid, session);
    SplitSession(uid', session');
    hide Decimal, RSplit, Join;
  }

  ghost predicate Parses(keys: seq<string>, rows: seq<Row>) {
    |rows| == |keys| && forall i :: 0 <= i < |keys| ==> ParseKey(keys[i]) == Ok(rows[i])
  }

  /** Row j outranks row m: a higher index, or the same index earlier. */
  predicate Outranks(rows: seq<Row>, j: nat, m: nat)
    requires j < |rows| && m < |rows|
  {
    rows[m].index < rows[j].index || (rows[m].index == rows[j].index && j <= m)
  }

  /** j is the final row of its session. */
  ghost predicate IsFinal(rows: seq<Row>, j: nat) {
    j < |rows| && forall m :: 0 <= m < |rows| && rows[m].session == rows[j].session ==> Outranks(rows, j, m)
  }

  lemma {:induction false} FinalIsUnique(rows: seq<Row>, i: nat, j: nat)
    requires IsFinal(rows, i) && IsFinal(rows, j) && rows[i].session == rows[j].session
    ensures i == j
  {
  }

  /** For every session among the rows seen, its best row with that row's index. */
  ghost predicate BestOf(rows: seq<Row>, best: map<string, (int, nat)>) {
    && (forall i :: 0 <= i < |rows| ==> rows[i].session in best)
    && forall s :: s in best ==>
         best[s].1 < |rows| && rows[best[s].1] == Row(s, best[s].0) && IsFinal(rows, best[s].1)
  }

  function Better(best: map<string, (int, nat)>, row: Row, i: nat): map<string, (int, nat)> {
    if row.session !in best || best[row.session].0 < row.index then best[row.session := (row.index, i)] else best
  }

  lemma {:induction false} FinalExtends(rows: seq<Row>, row: Row, j: nat)
    requires IsFinal(rows, j) && (row.session == rows[j].session ==> row.index <= rows[j].index)
    ensures IsFinal(rows + [row], j)
  {
  }

  lemma {:induction false} NewFinal(rows: seq<Row>, row: Row)
    requires forall m :: 0 <= m < |rows| && rows[m].session == row.session ==> rows[m].index < row.index
    ensures IsFinal(rows + [row], |rows|)
  {
  }

  lemma {:induction false} BestStep(rows: seq<Row>, row: Row, best: map<string, (int, nat)>)
    requires BestOf(rows, best)
    ensures BestOf(rows + [row], Better(best, row, |rows|))
  {
    var all, better := rows + [row], Better(best, row, |rows|);
    if better != best {
      forall m | 0 <= m < |rows| && rows[m].session == row.session ensures rows[m].index < row.index {
        assert Outranks(rows, best[row.session].1, m);
      }
      NewFinal(rows, row);
    }
    forall s | s in better ensures better[s].1 < |all| && all[better[s].1] == Row(s, better[s].0) && IsFinal(all, better[s].1) {
      if s in best && better[s] == best[s] {
        FinalExtends(rows, row, best[s].1);
      }
    }
  }

  // ---------- the two loops ----------

  lemma {:induction false} NoParse(keys: seq<string>, i: nat)
    requires i < |keys| && ParseKey(keys[i]).Err?
    ensures !exists rows :: Parses(keys, rows)
  {
  }

  lemma {:induction false} ParseIsUnique(keys: seq<string>, rows: seq<Row>, rows': seq<Row>)
    requires Parses(keys, rows) && Parses(keys, rows')
    ensures rows == rows'
  {
  }

  /** Every session once. */
  ghost predicate Ordered(order: seq<string>, best: map<string, (int, nat)>) {
    && (forall s :: s in order <==> s in best)
    && forall m, n :: 0 <= m < n < |order| ==> order[m] != order[n]
  }

  /** The first keys have been read: their rows, each session's best, and the sessions in order of appearance. */
  ghost predicate Collected(keys: seq<string>, rows: seq<Row>, best: map<string, (int, nat)>, order: seq<string>) {
    && |rows| <= |keys|
    && (forall m :: 0 <= m < |rows| ==> ParseKey(keys[m]) == Ok(rows[m]))
    && BestOf(rows, best) && Ordered(order, best)
  }

  lemma {:induction false} OrderStep(order: seq<string>, best: map<string, (int, nat)>, row: Row, i: nat)
    requires Ordered(order, best)
    ensures Ordered(if row.session in best then order else order + [row.session], Better(best, row, i))
  {
  }

  lemma {:induction false} CollectOneMore(keys: seq<string>, rows: seq<Row>, best: map<string, (int, nat)>,
                                          order: seq<string>, row: Row)
    requires Collected(keys, rows, best, order) && |rows| < |keys| && ParseKey(keys[|rows|]) == Ok(row)
    ensures Collected(keys, rows + [row], Better(best, row, |rows|),
                      if row.session in best then order else order + [row.session])
  {
    hide BestOf, ParseKey, Ordered, Better;
    BestStep(rows, row, best);
    OrderStep(order, best, row, |rows|);
  }

  /** The first loop: the best row of every session, sessions in order of first appearance. */
  method CollectFinals(keys: seq<string>)
    returns (ok: bool, ghost rows: seq<Row>, best: map<string, (int, nat)>, order: seq<string>, rowSessions: seq<string>)
    ensures ok <==> exists rs :: Parses(keys, rs)
    ensures ok ==> Parses(keys, rows) && Collected(keys, rows, best, order)
    ensures ok ==> |rowSessions| == |rows| && forall i :: 0 <= i < |rows| ==> rowSessions[i] == rows[i].session
  {
    ok, rows, best, order, rowSessions := true, [], map[], [], [];
    hide Collected, ParseKey, Parses, Better;
    NothingCollected(keys);
    for i := 0 to |keys|
      invariant |rows| == |rowSessions| == i
      invariant forall m :: 0 <= m < i ==> rowSessions[m] == rows[m].session
      invariant Collected(keys, rows, best, order)
    {
      var row := ParseKey(keys[i]);
      if row.Err? {
        NoParse(keys, i);
        ok := false;
        return;
      }
      var session := row.value.session;
      rowSessions := rowSessions + [session];
      CollectOneMore(keys, rows, best, order, row.value);
      if session !in best {
        order := order + [session];
      }
      best := Better(best, row.value, i);
      rows := rows + [row.value];
    }
    AllParsed(keys, rows, best, order);
  }

  lemma {:induction false} NothingCollected(keys: seq<string>)
    ensures Collected(keys, [], map[], [])
  {
    hide IsFinal;
  }

  lemma {:induction false} AllParsed(keys: seq<string>, rows: seq<Row>, best: map<string, (int, nat)>, order: seq<string>)
    requires Collected(keys, rows, best, order) && |rows| == |keys|
    ensures Parses(keys, rows)
  {
  }

  /** The rows selected, and for every row the position of its session's row among them. */
  ghost predicate Selected(rows: seq<Row>, finals: seq<nat>, local: seq<nat>) {
    && |local| == |rows|
    && (forall i :: 0 <= i < |rows| ==>
          local[i] < |finals| && IsFinal(rows, finals[local[i]]) && rows[finals[local[i]]].session == rows[i].session)
    && (forall j :: j in finals <==> IsFinal(rows, j))
    && forall i, j :: 0 <= i < j < |finals| ==> finals[i] != finals[j]
  }

  lemma {:induction false} FinalsAreFinal(rows: seq<Row>, best: map<string, (int, nat)>, order: seq<string>,
                                          finals: seq<nat>)
    requires BestOf(rows, best) && Ordered(order, best)
    requires |finals| == |order| && forall m :: 0 <= m < |order| ==> finals[m] == best[order[m]].1
    ensures forall m :: 0 <= m < |finals| ==> IsFinal(rows, finals[m]) && rows[finals[m]].session == order[m]
    ensures forall j :: j in finals <==> IsFinal(rows, j)
    ensures forall i, j :: 0 <= i < j < |finals| ==> finals[i] != finals[j]
  {
    forall m | 0 <= m < |finals| ensures IsFinal(rows, finals[m]) && rows[finals[m]].session == order[m] {
      assert order[m] in order;
    }
    forall j: nat | IsFinal(rows, j) ensures j in finals {
      var s := rows[j].session;
      assert s in order;
      var m :| 0 <= m < |order| && order[m] == s;
      FinalIsUnique(rows, j, finals[m]);
    }
  }

  /** The second and third loops: positions of the final rows, looked up for every row. */
  method IndexFinals(ghost rows: seq<Row>, best: map<string, (int, nat)>, order: seq<string>, rowSessions: seq<string>)
    returns (finals: seq<nat>, local: seq<nat>)
    requires BestOf(rows, best) && Ordered(order, best)
    requires |rowSessions| == |rows| && forall i :: 0 <= i < |rows| ==> rowSessions[i] == rows[i].session
    ensures Selected(rows, finals, local)
  {
    finals, local := [], [];
    var position: map<string, nat> := map[];
    for k := 0 to |order|
      invariant |finals| == k && forall m :: 0 <= m < k ==> finals[m] == best[order[m]].1
      invariant forall m :: 0 <= m < k ==> order[m] in position && position[order[m]] == m
    {
      assert order[k] in order;
      finals := finals + [best[order[k]].1];
      position := position[order[k] := k];
    }
    FinalsAreFinal(rows, best, order, finals);
    hide IsFinal;
    for i := 0 to |rowSessions|
      invariant |local| == i
      invariant forall m :: 0 <= m < i ==> local[m] < |order| && order[local[m]] == rows[m].session
    {
      assert rows[i].session in order;
      local := local + [position[rowSessions[i]]];
    }
  }

  /** Selecting the rows advantages are computed on, and spreading their scores back over all rows. */
  method FinalSessions(keys: seq<string>) returns (ok: bool, finals: seq<nat>, local: seq<nat>)
    ensures ok <==> exists rows :: Parses(keys, rows)
    ensures ok ==> forall rows :: Parses(keys, rows) ==> Selected(rows, finals, local)
  {
    ghost var rows;
    var best, order, rowSessions;
    ok, rows, best, order, rowSessions := CollectFinals(keys);
    finals, local := [], [];
    if ok {
      finals, local := IndexFinals(rows, best, order, rowSessions);
      forall rs | Parses(keys, rs) ensures rs == rows {
        ParseIsUnique(keys, rs, rows);
      }
    }
  }

  /** `sorted` over the positions kept in a dictionary. */
  method SortedPositions(sessionMax: map<string, (int, nat)>, n: nat) returns (finals: seq<nat>)
    requires forall s :: s in sessionMax ==> sessionMax[s].1 < n
    ensures forall j: nat :: j in finals <==> exists s :: s in sessionMax && sessionMax[s].1 == j
    ensures forall i, j :: 0 <= i < j < |finals| ==> finals[i] < finals[j]
  {
    finals := [];
    for pos := 0 to n
      invariant forall m :: 0 <= m < |finals| ==> finals[m] < pos
      invariant forall m, k :: 0 <= m < k < |finals| ==> finals[m] < finals[k]
      invariant forall j: nat :: j in finals <==> j < pos && exists s :: s in sessionMax && sessionMax[s].1 == j
    {
      if exists s :: s in sessionMax && sessionMax[s].1 == pos {
        finals := finals + [pos];
      }
    }
  }

  /** What the validation loop reads off a key: a key that does not have three fields is a session of its own, with
      index 0, and is marked plain. */
  function ValidationRow(key: string): Result<(Row, bool)> {
    var fields := RSplit(key, 2);
    if |fields| != 3 then Ok((Row(key, 0), true))
    else
      var index :- ParseInt(fields[2]);
      Ok((Row(Join(fields[0], fields[1]), index), false))
  }

  ghost predicate Reads(keys: seq<string>, rows: seq<Row>, plain: seq<bool>) {
    |rows| == |plain| == |keys| && forall i :: 0 <= i < |keys| ==> ValidationRow(keys[i]) == Ok((rows[i], plain[i]))
  }

  /** A later plain key of the same name discards this row. */
  ghost predicate Discarded(rows: seq<Row>, plain: seq<bool>, m: nat)
    requires |rows| == |plain| && m < |rows|
  {
    exists p :: m < p < |rows| && plain[p] && rows[p].session == rows[m].session
  }

  /** j is its session's final row among those that are not discarded. */
  ghost predicate IsPicked(rows: seq<Row>, plain: seq<bool>, j: nat)
    requires |rows| == |plain|
  {
    && j < |rows| && !Discarded(rows, plain, j)
    && forall m :: 0 <= m < |rows| && rows[m].session == rows[j].session && !Discarded(rows, plain, m) ==> Outranks(rows, j, m)
  }

  /** For every session among the rows read, the row picked for it with that row's index. */
  ghost predicate PickedOf(rows: seq<Row>, plain: seq<bool>, best: map<string, (int, nat)>)
    requires |rows| == |plain|
  {
    && (forall i :: 0 <= i < |rows| ==> rows[i].session in best)
    && forall s :: s in best ==>
         best[s].1 < |rows| && rows[best[s].1] == Row(s, best[s].0) && IsPicked(rows, plain, best[s].1)
  }

  function Pick(best: map<string, (int, nat)>, row: Row, plain: bool, i: nat): map<string, (int, nat)> {
    if plain then best[row.session := (0, i)] else Better(best, row, i)
  }

  lemma {:induction false} DiscardedLater(rows: seq<Row>, plain: seq<bool>, row: Row, p: bool, m: nat)
    requires |rows| == |plain| && m < |rows|
    ensures Discarded(rows + [row], plain + [p], m) <==> Discarded(rows, plain, m) || (p && row.session == rows[m].session)
  {
    var all, flags := rows + [row], plain + [p];
    if Discarded(rows, plain, m) {
      var q :| m < q < |rows| && plain[q] && rows[q].session == rows[m].session;
      assert flags[q] && all[q].session == all[m].session;
    }
    if p && row.session == rows[m].session {
      assert flags[|rows|] && all[|rows|].session == all[m].session;
    }
  }

  lemma {:induction false} LastIsKept(rows: seq<Row>, plain: seq<bool>, row: Row, p: bool)
    requires |rows| == |plain|
    ensures !Discarded(rows + [row], plain + [p], |rows|)
  {
  }

  /** The row picked for another session, or one the new row does not displace. */
  lemma {:induction false} PickStays(rows: seq<Row>, plain: seq<bool>, row: Row, p: bool, j: nat)
    requires |rows| == |plain| && IsPicked(rows, plain, j)
    requires row.session == rows[j].session ==> !p && row.index <= rows[j].index
    ensures IsPicked(rows + [row], plain + [p], j)
  {
    var all, flags := rows + [row], plain + [p];
    DiscardedLater(rows, plain, row, p, j);
    forall m | 0 <= m < |all| && all[m].session == rows[j].session && !Discarded(all, flags, m) ensures Outranks(all, j, m) {
      if m < |rows| {
        DiscardedLater(rows, plain, row, p, m);
        assert Outranks(rows, j, m);
      }
    }
  }

  lemma {:induction false} PickNew(rows: seq<Row>, plain: seq<bool>, row: Row, p: bool)
    requires |rows| == |plain|
    requires !p ==> forall m :: 0 <= m < |rows| && rows[m].session == row.session && !Discarded(rows, plain, m) ==>
                                  rows[m].index < row.index
    ensures IsPicked(rows + [row], plain + [p], |rows|)
  {
    var all, flags := rows + [row], plain + [p];
    LastIsKept(rows, plain, row, p);
    forall m | 0 <= m < |all| && all[m].session == row.session && !Discarded(all, flags, m) ensures Outranks(all, |rows|, m) {
      if m < |rows| {
        DiscardedLater(rows, plain, row, p, m);
      }
    }
  }

  lemma {:induction false} PickStep(rows: seq<Row>, plain: seq<bool>, row: Row, p: bool, best: map<string, (int, nat)>)
    requires |rows| == |plain| && PickedOf(rows, plain, best) && (p ==> row.index == 0)
    ensures PickedOf(rows + [row], plain + [p], Pick(best, row, p, |rows|))
  {
    var all, flags, next := rows + [row], plain + [p], Pick(best, row, p, |rows|);
    if next[row.session].1 == |rows| {
      if !p && row.session in best {
        forall m | 0 <= m < |rows| && rows[m].session == row.session && !Discarded(rows, plain, m)
          ensures rows[m].index < row.index
        {
          assert Outranks(rows, best[row.session].1, m);
        }
      }
      PickNew(rows, plain, row, p);
    }
    forall s | s in next
      ensures next[s].1 < |all| && all[next[s].1] == Row(s, next[s].0) && IsPicked(all, flags, next[s].1)
    {
      if next[s].1 < |rows| {
        PickStays(rows, plain, row, p, best[s].1);
      }
    }
    hide IsPicked;
  }

  lemma {:induction false} PickedPositions(rows: seq<Row>, plain: seq<bool>, best: map<string, (int, nat)>)
    requires |rows| == |plain| && PickedOf(rows, plain, best)
    ensures forall j: nat :: IsPicked(rows, plain, j) <==> exists s :: s in best && best[s].1 == j
  {
    forall j: nat | IsPicked(rows, plain, j) ensures exists s :: s in best && best[s].1 == j {
      var i := best[rows[j].session].1;
      assert Outranks(rows, i, j) && Outranks(rows, j, i);
    }
  }

  lemma {:induction false} ReadOnce(keys: seq<string>, rows: seq<Row>, plain: seq<bool>, rows': seq<Row>, plain': seq<bool>)
    requires Reads(keys, rows, plain) && Reads(keys, rows', plain')
    ensures rows == rows' && plain == plain'
  {
    hide ValidationRow;
  }

  /** The first keys have been read, and `best` holds the rows picked among them. */
  ghost predicate ReadSoFar(keys: seq<string>, rows: seq<Row>, plain: seq<bool>, best: map<string, (int, nat)>) {
    && |rows| == |plain| <= |keys|
    && (forall m :: 0 <= m < |rows| ==> ValidationRow(keys[m]) == Ok((rows[m], plain[m])))
    && PickedOf(rows, plain, best)
  }

  lemma {:induction false} ReadOneMore(keys: seq<string>, rows: seq<Row>, plain: seq<bool>, best: map<string, (int, nat)>,
                                       row: Row, p: bool)
    requires ReadSoFar(keys, rows, plain, best) && |rows| < |keys| && (p ==> row.index == 0)
    requires ValidationRow(keys[|rows|]) == Ok((row, p))
    ensures ReadSoFar(keys, rows + [row], plain + [p], Pick(best, row, p, |rows|))
  {
    hide ValidationRow, PickedOf, Pick;
    PickStep(rows, plain, row, p, best);
  }

  lemma {:induction false} Unreadable(keys: seq<string>, i: nat)
    requires i < |keys| && ValidationRow(keys[i]).Err?
    ensures !exists rows, plain :: Reads(keys, rows, plain)
  {
    hide ValidationRow;
  }

  lemma {:induction false} ReadAll(keys: seq<string>, rows: seq<Row>, plain: seq<bool>, best: map<string, (int, nat)>,
                                   finals: seq<nat>)
    requires ReadSoFar(keys, rows, plain, best) && |rows| == |keys|
    requires forall j: nat :: j in finals <==> exists s :: s in best && best[s].1 == j
    ensures Reads(keys, rows, plain)
    ensures forall rs, ps :: Reads(keys, rs, ps) ==> forall j: nat :: j in finals <==> IsPicked(rs, ps, j)
  {
    PickedPositions(rows, plain, best);
    hide ValidationRow, PickedOf, IsPicked;
    forall rs, ps | Reads(keys, rs, ps) ensures rs == rows && ps == plain {
      ReadOnce(keys, rs, ps, rows, plain);
    }
    hide Reads;
  }

  /** The validation selector: a dictionary from session to its best row, then the sorted positions. */
  method ValidationFinals(keys: seq<string>) returns (ok: bool, finals: seq<nat>)
    ensures ok <==> exists rows, plain :: Reads(keys, rows, plain)
    ensures ok ==> forall rows, plain :: Reads(keys, rows, plain) ==> forall j: nat :: j in finals <==> IsPicked(rows, plain, j)
    ensures forall i, j :: 0 <= i < j < |finals| ==> finals[i] < finals[j]
  {
    ok, finals := true, [];
    var sessionMax: map<string, (int, nat)> := map[];
    ghost var rows: seq<Row>, plain: seq<bool> := [], [];
    assert ReadSoFar(keys, rows, plain, sessionMax);
    hide ReadSoFar, Reads, RSplit, ParseInt, IsPicked;
    for i := 0 to |keys|
      invariant |rows| == |plain| == i
      invariant forall s :: s in sessionMax ==> sessionMax[s].1 < i
      invariant ReadSoFar(keys, rows, plain, sessionMax)
    {
      var parts := RSplit(keys[i], 2);
      if |parts| == 3 {
        var index := ParseInt(parts[2]);
        if index.Err? {
          Unreadable(keys, i);
          ok := false;
          return;
        }
        var row := Row(Join(parts[0], parts[1]), index.value);
        ReadOneMore(keys, rows, plain, sessionMax, row, false);
        rows, plain := rows + [row], plain + [false];
        if row.session !in sessionMax || row.index > sessionMax[row.session].0 {
          sessionMax := sessionMax[row.session := (row.index, i)];
        }
      } else {
        ReadOneMore(keys, rows, plain, sessionMax, Row(keys[i], 0), true);
        rows, plain := rows + [Row(keys[i], 0)], plain + [true];
        sessionMax := sessionMax[keys[i] := (0, i)];
      }
    }
    finals := SortedPositions(sessionMax, |keys|);
    ReadAll(keys, rows, plain, sessionMax, finals);
  }

  lemma {:induction false} SameRow(key: string, row: Row)
    ensures ParseKey(key) == Ok(row) <==> ValidationRow(key) == Ok((row, false))
  {
  }

  /** Where every key has three fields, the validation selector picks each session's final row. */
  lemma {:induction false} PickedIsFinal(keys: seq<string>, rows: seq<Row>)
    requires Parses(keys, rows)
    ensures Reads(keys, rows, seq(|keys|, _ => false))
    ensures forall j: nat :: IsPicked(rows, seq(|keys|, _ => false), j) <==> IsFinal(rows, j)
  {
    forall i | 0 <= i < |keys| ensures ValidationRow(keys[i]) == Ok((rows[i], false)) {
      SameRow(keys[i], rows[i]);
    }
    hide ValidationRow, ParseKey;
  }

  /** Training and validation pick the same rows. */
  method SameFinalRows(keys: seq<string>) returns (ok: bool, train: seq<nat>, val: seq<nat>)
    ensures ok <==> exists rows :: Parses(keys, rows)
    ensures ok ==> forall j :: j in train <==> j in val
  {
    var local;
    ok, train, local := FinalSessions(keys);
    var read, v := ValidationFinals(keys);
    val := v;
    if ok {
      ghost var rows :| Parses(keys, rows);
      PickedIsFinal(keys, rows);
      assert Selected(rows, train, local);
    }
    hide IsFinal, IsPicked, Parses, Reads;
  }
}
