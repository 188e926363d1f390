/** Refresh-token families: login starts one, rotation extends it, replay of a used token and logout end it. */
module Tokens {
  import opened Domain

  datatype Reason = ReuseDetected | LoggedOut

  /** A row of refresh_tokens; its id is its index, and presenting a token is presenting its id. */
  datatype Token = Token(family: nat, user: nat, parent: Option<nat>, usedAt: Option<int>, revoked: Option<Reason>, expires: int)

  datatype Outcome = Unknown | AlreadyRevoked | Reused | Expired | Inactive | Rotated(token: nat)

  datatype Step =
    | Login(user: nat, now: int)
    | Rotate(token: nat, active: bool, now: int)
    | Logout(token: nat)

  datatype Tokens = Tokens(ttl: nat, rows: seq<Token>, nextFamily: nat)

  function Revoke(rows: seq<Token>, family: nat, reason: Reason): seq<Token> {
    seq(|rows|, i requires 0 <= i < |rows| =>
      if rows[i].family == family && rows[i].revoked.None? then rows[i].(revoked := Some(reason)) else rows[i])
  }

  function RotateOutcome(rows: seq<Token>, token: nat, active: bool, now: int): Outcome {
    if token >= |rows| then Unknown
    else if rows[token].revoked.Some? then AlreadyRevoked
    else if rows[token].usedAt.Some? then Reused
    else if rows[token].expires <= now then Expired
    else if !active then Inactive
    else Rotated(|rows|)
  }

  function RotateOn(rows: seq<Token>, token: nat, active: bool, now: int, ttl: nat): seq<Token> {
    match RotateOutcome(rows, token, active, now)
    case Reused => Revoke(rows, rows[token].family, ReuseDetected)
    case Rotated(_) =>
      var row := rows[token];
      rows[token := row.(usedAt := Some(now))] + [Token(row.family, row.user, Some(token), None, None, now + ttl)]
    case _ => rows
  }

  function Next(s: Tokens, step: Step): Tokens {
    match step
    case Login(user, now) =>
      s.(rows := s.rows + [Token(s.nextFamily, user, None, None, None, now + s.ttl)], nextFamily := s.nextFamily + 1)
    case Rotate(token, active, now) => s.(rows := RotateOn(s.rows, token, active, now, s.ttl))
    case Logout(token) => if token < |s.rows| then s.(rows := Revoke(s.rows, s.rows[token].family, LoggedOut)) else s
  }

  function Exec(s: Tokens, steps: seq<Step>): Tokens {
    if steps == [] then s else Next(Exec(s, steps[..|steps| - 1]), steps[|steps| - 1])
  }

  // ----- what every step keeps -----

  /** A token's place in its family: the first has no parent; the next one's parent is the one before it. */
  ghost predicate InChain(rows: seq<Token>, j: nat)
    requires j < |rows|
  {
    match rows[j].parent
    case None => forall i :: 0 <= i < j ==> rows[i].family != rows[j].family
    case Some(p) =>
      && p < j && rows[p].family == rows[j].family && rows[p].user == rows[j].user
      && forall i :: p < i < j ==> rows[i].family != rows[j].family
  }

  ghost predicate Chains(rows: seq<Token>) {
    forall j: nat :: j < |rows| ==> InChain(rows, j)
  }

  /** Every token but its family's last has been used. */
  ghost predicate UsedInOrder(rows: seq<Token>) {
    forall i, j :: 0 <= i < j < |rows| && rows[i].family == rows[j].family ==> rows[i].usedAt.Some?
  }

  ghost predicate RevokedWholly(rows: seq<Token>) {
    forall i, j :: 0 <= i < |rows| && 0 <= j < |rows| && rows[i].family == rows[j].family ==> rows[i].revoked == rows[j].revoked
  }

  ghost predicate Families(s: Tokens) {
    && (forall j :: 0 <= j < |s.rows| ==> s.rows[j].family < s.nextFamily)
    && Chains(s.rows) && UsedInOrder(s.rows) && RevokedWholly(s.rows)
  }

  lemma RevokeKeepsFamilies(s: Tokens, family: nat, reason: Reason)
    requires Families(s)
    ensures Families(s.(rows := Revoke(s.rows, family, reason)))
  {
    var rows := Revoke(s.rows, family, reason);
    forall j: nat | j < |rows| ensures InChain(rows, j) {
      assert InChain(s.rows, j);
    }
  }

  lemma AppendKeepsChains(rows: seq<Token>, token: Token)
    requires Chains(rows) && InChain(rows + [token], |rows|)
    ensures Chains(rows + [token])
  {
    forall j: nat | j < |rows| ensures InChain(rows + [token], j) {
      assert InChain(rows, j);
    }
  }

  function Use(rows: seq<Token>, token: nat, now: int): seq<Token>
    requires token < |rows|
  {
    rows[token := rows[token].(usedAt := Some(now))]
  }

  lemma UseKeepsChains(rows: seq<Token>, token: nat, now: int)
    requires token < |rows| && Chains(rows) && UsedInOrder(rows) && RevokedWholly(rows)
    ensures Chains(Use(rows, token, now)) && UsedInOrder(Use(rows, token, now)) && RevokedWholly(Use(rows, token, now))
  {
    forall j: nat | j < |rows| ensures InChain(Use(rows, token, now), j) {
      assert InChain(rows, j);
    }
  }

  /** The child of a family's last token continues the chain. */
  lemma ChildKeepsFamilies(rows: seq<Token>, token: nat, child: Token)
    requires token < |rows| && Chains(rows) && UsedInOrder(rows) && RevokedWholly(rows)
    requires child.family == rows[token].family && child.user == rows[token].user && child.parent == Some(token)
    requires rows[token].usedAt.Some? && rows[token].revoked == child.revoked
    requires forall i :: token < i < |rows| ==> rows[i].family != rows[token].family
    ensures Chains(rows + [child]) && UsedInOrder(rows + [child]) && RevokedWholly(rows + [child])
  {
    assert InChain(rows + [child], |rows|);
    AppendKeepsChains(rows, child);
    forall i | 0 <= i < |rows| && rows[i].family == child.family ensures rows[i].usedAt.Some? {
      assert i < token ==> rows[i].usedAt.Some?;
    }
  }

  lemma RotationKeepsFamilies(s: Tokens, token: nat, now: int)
    requires Families(s) && RotateOutcome(s.rows, token, true, now).Rotated?
    ensures Families(s.(rows := RotateOn(s.rows, token, true, now, s.ttl)))
  {
    var used := Use(s.rows, token, now);
    UseKeepsChains(s.rows, token, now);
    assert forall i :: token < i < |used| ==> used[i].family != used[token].family;
    ChildKeepsFamilies(used, token, Token(s.rows[token].family, s.rows[token].user, Some(token), None, None, now + s.ttl));
  }

  lemma LoginKeepsFamilies(s: Tokens, user: nat, now: int)
    requires Families(s)
    ensures Families(Next(s, Login(user, now)))
  {
    AppendKeepsChains(s.rows, Token(s.nextFamily, user, None, None, None, now + s.ttl));
  }

  lemma StepKeepsFamilies(s: Tokens, step: Step)
    requires Families(s)
    ensures Families(Next(s, step))
  {
    match step
    case Login(user, now) => LoginKeepsFamilies(s, user, now);
    case Rotate(token, active, now) =>
      if RotateOutcome(s.rows, token, active, now).Reused? {
        RevokeKeepsFamilies(s, s.rows[token].family, ReuseDetected);
      } else if RotateOutcome(s.rows, token, active, now).Rotated? {
        RotationKeepsFamilies(s, token, now);
      }
    case Logout(token) =>
      if token < |s.rows| {
        RevokeKeepsFamilies(s, s.rows[token].family, LoggedOut);
      }
  }

  lemma {:induction false} RunKeepsFamilies(s: Tokens, steps: seq<Step>)
    requires Families(s)
    ensures Families(Exec(s, steps))
  {
    if steps != [] {
      RunKeepsFamilies(s, steps[..|steps| - 1]);
      StepKeepsFamilies(Exec(s, steps[..|steps| - 1]), steps[|steps| - 1]);
    }
  }

  /** In every reachable state a family has at most one token that could still rotate, and it is revoked as a
    * whole or not at all. */
  lemma OneUsableToken(ttl: nat, steps: seq<Step>, i: nat, j: nat)
    requires var rows := Exec(Tokens(ttl, [], 0), steps).rows;
      i < |rows| && j < |rows| && rows[i].family == rows[j].family
    ensures var rows := Exec(Tokens(ttl, [], 0), steps).rows;
      && (rows[i].usedAt.None? && rows[j].usedAt.None? ==> i == j)
      && rows[i].revoked == rows[j].revoked && rows[i].user == rows[j].user
  {
    var s := Tokens(ttl, [], 0);
    RunKeepsFamilies(s, steps);
    SameUser(Exec(s, steps), if i <= j then i else j, if i <= j then j else i);
  }

  function AncestorOf(rows: seq<Token>, j: nat, generations: nat): Option<nat>
    decreases generations
  {
    if generations == 0 then Some(j)
    else if j < |rows| && rows[j].parent.Some? then AncestorOf(rows, rows[j].parent.value, generations - 1)
    else None
  }

  /** Each family is one chain: from any token the parents lead to every earlier token of the family. */
  lemma {:induction false} FamilyIsAChain(s: Tokens, i: nat, j: nat) returns (generations: nat)
    requires Families(s) && i <= j < |s.rows| && s.rows[i].family == s.rows[j].family
    ensures AncestorOf(s.rows, j, generations) == Some(i)
    decreases j
  {
    if i == j {
      generations := 0;
    } else {
      assert InChain(s.rows, j);
      var p := s.rows[j].parent.value;
      generations := FamilyIsAChain(s, i, p);
      generations := generations + 1;
    }
  }

  lemma {:induction false} SameUser(s: Tokens, i: nat, j: nat)
    requires Families(s) && i <= j < |s.rows| && s.rows[i].family == s.rows[j].family
    ensures s.rows[i].user == s.rows[j].user
    decreases j
  {
    if i < j {
      assert InChain(s.rows, j);
      SameUser(s, i, s.rows[j].parent.value);
    }
  }

  // ----- a token rotates once -----

  predicate Rotates(s: Tokens, step: Step, token: nat) {
    step.Rotate? && step.token == token && RotateOutcome(s.rows, token, step.active, step.now).Rotated?
  }

  function Rotations(s: Tokens, steps: seq<Step>, token: nat): nat {
    if steps == [] then 0
    else
      Rotations(s, steps[..|steps| - 1], token)
      + if Rotates(Exec(s, steps[..|steps| - 1]), steps[|steps| - 1], token) then 1 else 0
  }

  /** Whatever happens around it, a token is exchanged successfully at most once, and not at all once used. */
  lemma {:induction false} RotatesAtMostOnce(s: Tokens, steps: seq<Step>, token: nat)
    ensures var rows := Exec(s, steps).rows;
      && |s.rows| <= |rows|
      && (token < |s.rows| && s.rows[token].usedAt.Some? ==> rows[token].usedAt.Some? && Rotations(s, steps, token) == 0)
      && Rotations(s, steps, token) <= 1
      && (Rotations(s, steps, token) == 1 ==> token < |rows| && rows[token].usedAt.Some?)
  {
    if steps != [] {
      RotatesAtMostOnce(s, steps[..|steps| - 1], token);
    }
  }

  // ----- a dead family stays dead -----

  ghost predicate Dead(rows: seq<Token>, family: nat) {
    forall i :: 0 <= i < |rows| && rows[i].family == family ==> rows[i].revoked.Some?
  }

  lemma {:induction false} DeadForGood(s: Tokens, steps: seq<Step>, family: nat)
    requires Dead(s.rows, family) && family < s.nextFamily
    ensures Dead(Exec(s, steps).rows, family) && family < Exec(s, steps).nextFamily
  {
    if steps != [] {
      DeadForGood(s, steps[..|steps| - 1], family);
    }
  }

  predicate Kills(s: Tokens, step: Step, family: nat) {
    || (step.Logout? && step.token < |s.rows| && s.rows[step.token].family == family)
    || (step.Rotate? && RotateOutcome(s.rows, step.token, step.active, step.now).Reused? && s.rows[step.token].family == family)
  }

  /** After a replay of a used token, or a logout with any token of the family, no token of the family, however
    * many were issued and whichever is presented, rotates again: each attempt is told the family is revoked. */
  lemma NoneRotatesAfterwards(s: Tokens, step: Step, steps: seq<Step>, family: nat, token: nat, active: bool, now: int)
    requires Families(s) && Kills(s, step, family)
    requires var rows := Exec(Next(s, step), steps).rows; token < |rows| && rows[token].family == family
    ensures RotateOutcome(Exec(Next(s, step), steps).rows, token, active, now) == AlreadyRevoked
  {
    assert InChain(s.rows, step.token);
    DeadForGood(Next(s, step), steps, family);
  }

  /** A used token replayed within its life kills the family exactly if nothing had killed it before. */
  lemma ReplayIsDetected(s: Tokens, token: nat, active: bool, now: int)
    requires Families(s) && token < |s.rows| && s.rows[token].usedAt.Some?
    ensures RotateOutcome(s.rows, token, active, now).Reused? <==> !Dead(s.rows, s.rows[token].family)
    ensures Dead(Next(s, Rotate(token, active, now)).rows, s.rows[token].family)
  {}

  // ----- the answers, told from the calls and the answers before them -----

  datatype Answer = Issued(token: nat) | Presented(outcome: Outcome) | Acknowledged

  function AnswerTo(s: Tokens, step: Step): Answer {
    match step
    case Login(_, _) => Issued(|s.rows|)
    case Rotate(token, active, now) => Presented(RotateOutcome(s.rows, token, active, now))
    case Logout(_) => Acknowledged
  }

  ghost function StateAt(ttl: nat, steps: seq<Step>, n: nat): Tokens
    requires n <= |steps|
  {
    Exec(Tokens(ttl, [], 0), steps[..n])
  }

  /** What was answered to each call on a table that began empty. */
  ghost predicate Transcript(ttl: nat, steps: seq<Step>, answers: seq<Answer>) {
    |answers| == |steps| && forall i: nat :: i < |steps| ==> answers[i] == AnswerTo(StateAt(ttl, steps, i), steps[i])
  }

  predicate Gives(answer: Answer, token: nat) {
    answer == Issued(token) || answer == Presented(Rotated(token))
  }

  /** How many tokens the first n answers gave out. */
  function Given(answers: seq<Answer>, n: nat): nat
    requires n <= |answers|
  {
    if n == 0 then 0
    else Given(answers, n - 1) + if answers[n - 1].Issued? || (answers[n - 1].Presented? && answers[n - 1].outcome.Rotated?) then 1 else 0
  }

  /** Which of the first n answers gave the token out. */
  function Birth(answers: seq<Answer>, n: nat, token: nat): (birth: Option<nat>)
    requires n <= |answers|
    ensures birth.Some? ==> birth.value < n && Gives(answers[birth.value], token)
  {
    if n == 0 then None
    else if Gives(answers[n - 1], token) then Some(n - 1)
    else Birth(answers, n - 1, token)
  }

  /** The login that the token goes back to, through the tokens it was exchanged for. */
  function Origin(steps: seq<Step>, answers: seq<Answer>, n: nat, token: nat): nat
    requires n <= |answers| == |steps|
    decreases n
  {
    var birth := Birth(answers, n, token);
    if birth.Some? && steps[birth.value].Rotate? then Origin(steps, answers, birth.value, steps[birth.value].token) else token
  }

  /** When one of the first n calls exchanged the token, if any did. */
  function ExchangedAt(steps: seq<Step>, answers: seq<Answer>, n: nat, token: nat): Option<int>
    requires n <= |answers| == |steps|
  {
    if n == 0 then None
    else if steps[n - 1].Rotate? && steps[n - 1].token == token && answers[n - 1].Presented? && answers[n - 1].outcome.Rotated?
    then Some(steps[n - 1].now)
    else ExchangedAt(steps, answers, n - 1, token)
  }

  /** Call n is a logout with a token of that login, or presents one that was exchanged before. */
  predicate Ends(steps: seq<Step>, answers: seq<Answer>, n: nat, origin: nat)
    requires n < |answers| == |steps|
  {
    match steps[n]
    case Login(_, _) => false
    case Rotate(token, _, _) => ExchangedAt(steps, answers, n, token).Some? && Origin(steps, answers, n, token) == origin
    case Logout(token) => Birth(answers, n, token).Some? && Origin(steps, answers, n, token) == origin
  }

  function ReasonOf(step: Step): Reason {
    if step.Rotate? then ReuseDetected else LoggedOut
  }

  /** Why the first of the first n calls to end that login ended it, if any did. */
  function EndedBy(steps: seq<Step>, answers: seq<Answer>, n: nat, origin: nat): Option<Reason>
    requires n <= |answers| == |steps|
  {
    if n == 0 then None
    else
      var before := EndedBy(steps, answers, n - 1, origin);
      if before.None? && Ends(steps, answers, n - 1, origin) then Some(ReasonOf(steps[n - 1])) else before
  }

  /** The moment of a call that gives a token out. */
  function Moment(step: Step): int {
    match step
    case Login(_, now) => now
    case Rotate(_, _, now) => now
    case Logout(_) => 0
  }

  /** The answer that the calls and answers before it leave for call n. */
  function Told(ttl: nat, steps: seq<Step>, answers: seq<Answer>, n: nat): Answer
    requires n < |answers| == |steps|
  {
    match steps[n]
    case Login(_, _) => Issued(Given(answers, n))
    case Logout(_) => Acknowledged
    case Rotate(token, active, now) =>
      var birth := Birth(answers, n, token);
      Presented(
        if birth.None? then Unknown
        else if EndedBy(steps, answers, n, Origin(steps, answers, n, token)).Some? then AlreadyRevoked
        else if ExchangedAt(steps, answers, n, token).Some? then Reused
        else if now >= Moment(steps[birth.value]) + ttl then Expired
        else if !active then Inactive
        else Rotated(Given(answers, n)))
  }

  /** The token was given to this user at a login. */
  ghost predicate FirstLogin(user: nat, steps: seq<Step>, answers: seq<Answer>, n: nat, token: nat)
    requires n <= |answers| == |steps|
  {
    var birth := Birth(answers, n, token);
    birth.Some? && steps[birth.value].Login? && steps[birth.value].user == user
  }

  /** Row j is what the first n calls and answers say of token j. */
  ghost predicate RowTold(s: Tokens, steps: seq<Step>, answers: seq<Answer>, n: nat, j: nat)
    requires n <= |answers| == |steps| && j < |s.rows|
  {
    var birth, origin := Birth(answers, n, j), Origin(steps, answers, n, j);
    && birth.Some? && s.rows[j].expires == Moment(steps[birth.value]) + s.ttl
    && s.rows[j].parent == (if steps[birth.value].Rotate? then Some(steps[birth.value].token) else None)
    && s.rows[j].usedAt == ExchangedAt(steps, answers, n, j)
    && s.rows[j].revoked == EndedBy(steps, answers, n, origin)
    && origin <= j && s.rows[origin].family == s.rows[j].family && s.rows[origin].parent.None?
    && FirstLogin(s.rows[j].user, steps, answers, n, origin)
  }

  ghost predicate Unborn(steps: seq<Step>, answers: seq<Answer>, n: nat, j: nat)
    requires n <= |answers| == |steps|
  {
    Birth(answers, n, j).None? && ExchangedAt(steps, answers, n, j).None? && EndedBy(steps, answers, n, j).None?
  }

  ghost predicate TableTold(s: Tokens, steps: seq<Step>, answers: seq<Answer>, n: nat)
    requires n <= |answers| == |steps|
  {
    && Families(s) && Given(answers, n) == |s.rows|
    && (forall j: nat :: j < |s.rows| ==> RowTold(s, steps, answers, n, j))
    && (forall j: nat :: |s.rows| <= j ==> Unborn(steps, answers, n, j))
  }

  lemma SameOriginIffSameFamily(s: Tokens, steps: seq<Step>, answers: seq<Answer>, n: nat, i: nat, j: nat)
    requires n <= |answers| == |steps| && TableTold(s, steps, answers, n) && i < |s.rows| && j < |s.rows|
    ensures Origin(steps, answers, n, i) == Origin(steps, answers, n, j) <==> s.rows[i].family == s.rows[j].family
  {
    assert RowTold(s, steps, answers, n, i) && RowTold(s, steps, answers, n, j);
    assert InChain(s.rows, Origin(steps, answers, n, i)) && InChain(s.rows, Origin(steps, answers, n, j));
  }

  /** What one call changes in a row that is there. */
  lemma RowAfter(s: Tokens, step: Step, j: nat)
    requires j < |s.rows|
    ensures j < |Next(s, step).rows|
    ensures var before, after := s.rows[j], Next(s, step).rows[j];
      && after == before.(usedAt := after.usedAt, revoked := after.revoked)
      && after.usedAt == (if Rotates(s, step, j) then Some(step.now) else before.usedAt)
      && after.revoked == (if before.revoked.None? && Kills(s, step, before.family) then Some(ReasonOf(step)) else before.revoked)
  {}

  lemma EndsIffKills(s: Tokens, steps: seq<Step>, answers: seq<Answer>, n: nat, j: nat)
    requires n < |answers| == |steps| && TableTold(s, steps, answers, n) && j < |s.rows| && s.rows[j].revoked.None?
    ensures Ends(steps, answers, n, Origin(steps, answers, n, j)) <==> Kills(s, steps[n], s.rows[j].family)
  {
    if !steps[n].Login? {
      var token := steps[n].token;
      if token < |s.rows| {
        SameOriginIffSameFamily(s, steps, answers, n, token, j);
        assert RowTold(s, steps, answers, n, token);
      } else {
        assert Unborn(steps, answers, n, token);
      }
    }
  }

  lemma OldRowTold(s: Tokens, steps: seq<Step>, answers: seq<Answer>, n: nat, j: nat)
    requires n < |answers| == |steps| && TableTold(s, steps, answers, n) && answers[n] == AnswerTo(s, steps[n])
    requires j < |s.rows| && j < |Next(s, steps[n]).rows|
    ensures RowTold(Next(s, steps[n]), steps, answers, n + 1, j)
  {
    assert RowTold(s, steps, answers, n, j);
    assert !Gives(answers[n], j);
    RowAfter(s, steps[n], j);
    RowAfter(s, steps[n], Origin(steps, answers, n, j));
    if s.rows[j].revoked.None? {
      EndsIffKills(s, steps, answers, n, j);
    }
  }

  lemma NewRowTold(s: Tokens, steps: seq<Step>, answers: seq<Answer>, n: nat)
    requires n < |answers| == |steps| && TableTold(s, steps, answers, n) && answers[n] == AnswerTo(s, steps[n])
    requires |s.rows| < |Next(s, steps[n]).rows|
    ensures RowTold(Next(s, steps[n]), steps, answers, n + 1, |s.rows|)
  {
    assert Unborn(steps, answers, n, |s.rows|);
    if steps[n].Rotate? {
      assert RowTold(s, steps, answers, n, steps[n].token);
      RowAfter(s, steps[n], Origin(steps, answers, n, steps[n].token));
    }
  }

  lemma StillUnborn(s: Tokens, steps: seq<Step>, answers: seq<Answer>, n: nat, j: nat)
    requires n < |answers| == |steps| && TableTold(s, steps, answers, n) && answers[n] == AnswerTo(s, steps[n])
    requires |Next(s, steps[n]).rows| <= j
    ensures Unborn(steps, answers, n + 1, j)
  {
    assert |s.rows| <= j && Unborn(steps, answers, n, j);
    if !steps[n].Login? {
      var token := steps[n].token;
      if token < |s.rows| {
        assert RowTold(s, steps, answers, n, token);
      } else {
        assert Unborn(steps, answers, n, token);
      }
    }
  }

  lemma StepTold(s: Tokens, steps: seq<Step>, answers: seq<Answer>, n: nat)
    requires n < |answers| == |steps| && TableTold(s, steps, answers, n) && answers[n] == AnswerTo(s, steps[n])
    ensures TableTold(Next(s, steps[n]), steps, answers, n + 1)
  {
    var t, m := Next(s, steps[n]), n + 1;
    StepKeepsFamilies(s, steps[n]);
    forall j: nat | j < |t.rows| ensures RowTold(t, steps, answers, m, j) {
      if j < |s.rows| {
        OldRowTold(s, steps, answers, n, j);
      } else {
        NewRowTold(s, steps, answers, n);
      }
    }
    forall j: nat | |t.rows| <= j ensures Unborn(steps, answers, m, j) {
      StillUnborn(s, steps, answers, n, j);
    }
  }

  /** The table holds what the calls and answers say, and no more. */
  lemma {:induction false} RunTold(ttl: nat, steps: seq<Step>, answers: seq<Answer>, n: nat)
    requires Transcript(ttl, steps, answers) && n <= |steps|
    ensures StateAt(ttl, steps, n).ttl == ttl && TableTold(StateAt(ttl, steps, n), steps, answers, n)
  {
    if n > 0 {
      RunTold(ttl, steps, answers, n - 1);
      assert steps[..n][..n - 1] == steps[..n - 1];
      StepTold(StateAt(ttl, steps, n - 1), steps, answers, n - 1);
    }
  }

  /** Over any run from an empty table a presented token is exchanged iff it was given out, its login was not ended,
    * it was not exchanged before, less than its life has passed since it was given out, and the user is active; the
    * first of these that fails is the reason of the refusal, and the new token is one nobody had. */
  lemma AnswersFollowHistory(ttl: nat, steps: seq<Step>, answers: seq<Answer>, n: nat)
    requires Transcript(ttl, steps, answers) && n < |steps|
    ensures answers[n] == Told(ttl, steps, answers, n)
  {
    RunTold(ttl, steps, answers, n);
    var s := StateAt(ttl, steps, n);
    assert answers[n] == AnswerTo(s, steps[n]);
    if steps[n].Rotate? {
      if steps[n].token < |s.rows| {
        assert RowTold(s, steps, answers, n, steps[n].token);
      } else {
        assert Unborn(steps, answers, n, steps[n].token);
      }
    }
  }

  lemma OneMoreCall(ttl: nat, steps: seq<Step>, answers: seq<Answer>, step: Step, answer: Answer)
    requires Transcript(ttl, steps, answers) && answer == AnswerTo(StateAt(ttl, steps, |steps|), step)
    ensures Transcript(ttl, steps + [step], answers + [answer])
    ensures StateAt(ttl, steps + [step], |steps| + 1) == Next(StateAt(ttl, steps, |steps|), step)
  {
    var longer := steps + [step];
    forall i: nat | i < |longer| ensures (answers + [answer])[i] == AnswerTo(StateAt(ttl, longer, i), longer[i]) {
      assert longer[..i] == steps[..i];
    }
    assert longer[..|steps| + 1][..|steps|] == steps[..|steps|];
  }

  // ----- the table as the object that the service updates -----

  class TokenTable {
    var rows: seq<Token>
    var nextFamily: nat
    const ttl: nat
    ghost var steps: seq<Step>
    ghost var answers: seq<Answer>

    /** The table is what the calls on it, from the first, have made of it. */
    ghost predicate Valid()
      reads this
    {
      Transcript(ttl, steps, answers) && State() == StateAt(ttl, steps, |steps|)
    }

    function State(): Tokens
      reads this
    {
      Tokens(ttl, rows, nextFamily)
    }

    constructor (ttl: nat)
      ensures State() == Tokens(ttl, [], 0) && Valid() && steps == [] && answers == []
    {
      this.ttl, rows, nextFamily, steps, answers := ttl, [], 0, [], [];
    }

    method IssueRefreshToken(user: nat, family: Option<nat>, parent: Option<nat>, now: int) returns (token: nat)
      modifies this`rows, this`nextFamily
      ensures token == |old(rows)|
      ensures rows == old(rows) + [Token(if family.Some? then family.value else old(nextFamily), user, parent, None, None, now + ttl)]
      ensures nextFamily == if family.Some? then old(nextFamily) else old(nextFamily) + 1
    {
      token := |rows|;
      var chosen := nextFamily;
      if family.Some? {
        chosen := family.value;
      } else {
        nextFamily := nextFamily + 1;
      }
      rows := rows + [Token(chosen, user, parent, None, None, now + ttl)];
    }

    method RevokeFamily(family: nat, reason: Reason) returns (revoked: nat)
      modifies this`rows
      ensures State() == old(State()).(rows := Revoke(old(rows), family, reason))
      ensures revoked > 0 <==> !Dead(old(rows), family)
    {
      revoked := 0;
      for i := 0 to |rows|
        invariant |rows| == |old(rows)|
        invariant forall k :: 0 <= k < i ==> rows[k] == Revoke(old(rows), family, reason)[k]
        invariant forall k :: i <= k < |rows| ==> rows[k] == old(rows)[k]
        invariant revoked > 0 <==> exists k :: 0 <= k < i && old(rows)[k].family == family && old(rows)[k].revoked.None?
      {
        if rows[i].family == family && rows[i].revoked.None? {
          rows := rows[i := rows[i].(revoked := Some(reason))];
          revoked := revoked + 1;
        }
      }
      assert rows == Revoke(old(rows), family, reason);
    }

    method Login(user: nat, now: int) returns (token: nat)
      requires Valid()
      modifies this
      ensures Valid() && steps == old(steps) + [Step.Login(user, now)] && answers == old(answers) + [Issued(token)]
      ensures State() == Next(old(State()), Step.Login(user, now)) && token == Given(answers, |old(steps)|)
    {
      token := IssueRefreshToken(user, None, None, now);
      Log(Step.Login(user, now), Issued(token), old(State()));
    }

    method RotateRefreshToken(token: nat, active: bool, now: int) returns (outcome: Outcome)
      requires Valid()
      modifies this
      ensures Valid() && steps == old(steps) + [Rotate(token, active, now)] && answers == old(answers) + [Presented(outcome)]
      ensures State() == Next(old(State()), Rotate(token, active, now))
      ensures Presented(outcome) == Told(ttl, steps, answers, |old(steps)|)
    {
      outcome := Exchange(token, active, now);
      Log(Rotate(token, active, now), Presented(outcome), old(State()));
    }

    method Exchange(token: nat, active: bool, now: int) returns (outcome: Outcome)
      modifies this`rows, this`nextFamily
      ensures outcome == RotateOutcome(old(rows), token, active, now)
      ensures State() == Next(old(State()), Rotate(token, active, now))
    {
      if token >= |rows| {
        return Unknown;
      }
      if rows[token].revoked.Some? {
        return AlreadyRevoked;
      }
      if rows[token].usedAt.Some? {
        var revoked := RevokeFamily(rows[token].family, ReuseDetected);
        return Reused;
      }
      if rows[token].expires <= now {
        return Expired;
      }
      if !active {
        return Inactive;
      }
      rows := rows[token := rows[token].(usedAt := Some(now))];
      var newToken := IssueRefreshToken(rows[token].user, Some(rows[token].family), Some(token), now);
      return Rotated(newToken);
    }

    method Logout(token: nat)
      requires Valid()
      modifies this
      ensures Valid() && steps == old(steps) + [Step.Logout(token)] && answers == old(answers) + [Acknowledged]
      ensures State() == Next(old(State()), Step.Logout(token))
    {
      if token < |rows| {
        var revoked := RevokeFamily(rows[token].family, LoggedOut);
      }
      Log(Step.Logout(token), Acknowledged, old(State()));
    }

    /** Writes down the call that took the table from `before` to where it is. */
    ghost method Log(step: Step, answer: Answer, before: Tokens)
      requires before == StateAt(ttl, steps, |steps|) && Transcript(ttl, steps, answers)
      requires State() == Next(before, step) && answer == AnswerTo(before, step)
      modifies this`steps, this`answers
      ensures Valid() && steps == old(steps) + [step] && answers == old(answers) + [answer]
      ensures answer == Told(ttl, steps, answers, |old(steps)|)
    {
      OneMoreCall(ttl, steps, answers, step, answer);
      steps, answers := steps + [step], answers + [answer];
      AnswersFollowHistory(ttl, steps, answers, |steps| - 1);
    }
  }
}
