/**
 How the type and the camera that a picture pass has read of a client go together.  The two are read one after the
 other without the lock under which a login stores them one after the other, so they need not have stood together; they
 did if and only if no login of the client straddles the look.
 */
module RelayLogins {
  import opened Prelude
  import opened Sessions
  import opened Relay
  import opened RelayPasses
  import opened RelayTheorems
  import Connection = RelayConnection

  // ----- which commands a setting comes from -----

  predicate IsSetting(t: Task) {
    t.Valid() && (Decode(t.memory).Login? || Decode(t.memory).Reset?)
  }

  /** The last login among these tasks, -1 without one: it has made the type. */
  function LastLogin(tasks: seq<Task>): (i: int)
    ensures -1 <= i < |tasks|
    ensures i >= 0 ==> IsLogin(tasks[i])
    ensures forall j :: i < j < |tasks| ==> !IsLogin(tasks[j])
  {
    if tasks == [] then -1 else if IsLogin(Last(tasks)) then |tasks| - 1 else LastLogin(Front(tasks))
  }

  /** The last login or reset among these tasks, -1 without one: it has made the camera. */
  function LastSetting(tasks: seq<Task>): (i: int)
    ensures -1 <= i < |tasks|
    ensures i >= 0 ==> IsSetting(tasks[i])
    ensures forall j :: i < j < |tasks| ==> !IsSetting(tasks[j])
  {
    if tasks == [] then -1 else if IsSetting(Last(tasks)) then |tasks| - 1 else LastSetting(Front(tasks))
  }

  function KindOf(tasks: seq<Task>, i: int): int
    requires -1 <= i < |tasks| && (i >= 0 ==> IsLogin(tasks[i]))
  {
    if i < 0 then NEWCOMER.kind else Decode(tasks[i].memory).kind
  }

  function CameraOf(tasks: seq<Task>, i: int): int
    requires -1 <= i < |tasks| && (i >= 0 ==> IsSetting(tasks[i]))
  {
    if i < 0 then NEWCOMER.camera
    else match Decode(tasks[i].memory)
      case Login(_, camera) => camera
      case Reset(camera) => camera
  }

  lemma KindSnoc(tasks: seq<Task>, t: Task, c: Client)
    requires t.Valid() && c.kind == KindOf(tasks, LastLogin(tasks))
    ensures Settle(c, Decode(t.memory)).kind == KindOf(tasks + [t], LastLogin(tasks + [t]))
  {
    hide Decode;
    assert Front(tasks + [t]) == tasks && Last(tasks + [t]) == t;
  }

  lemma CameraSnoc(tasks: seq<Task>, t: Task, c: Client)
    requires t.Valid() && c.camera == CameraOf(tasks, LastSetting(tasks))
    ensures Settle(c, Decode(t.memory)).camera == CameraOf(tasks + [t], LastSetting(tasks + [t]))
  {
    hide Decode;
    assert Front(tasks + [t]) == tasks && Last(tasks + [t]) == t;
  }

  /** A client's type and camera are those of the last commands that set them. */
  lemma {:induction false} SettledByLast(tasks: seq<Task>)
    requires Connection.TasksValid(tasks)
    ensures Connection.Settled(NEWCOMER, tasks).kind == KindOf(tasks, LastLogin(tasks))
    ensures Connection.Settled(NEWCOMER, tasks).camera == CameraOf(tasks, LastSetting(tasks))
    decreases |tasks|
  {
    if tasks != [] {
      var front, last := Front(tasks), Last(tasks);
      assert tasks == front + [last];
      assert last in tasks && forall t :: t in front ==> t in tasks;
      hide KindOf, CameraOf, LastLogin, LastSetting, Decode;
      SettledByLast(front);
      Connection.SettledSnoc(NEWCOMER, front, last);
      KindSnoc(front, last, Connection.Settled(NEWCOMER, front));
      CameraSnoc(front, last, Connection.Settled(NEWCOMER, front));
    }
  }

  // ----- exactly when a look is of one moment -----

  /**
   Task `i` stores something between the two readings: a login then changes the one that it has stored or will store.
   */
  predicate Between(heardKind: nat, heardCamera: nat, i: nat) {
    if heardKind <= heardCamera then heardKind <= i < heardCamera else heardCamera <= i < heardKind
  }

  /** A login of the client straddles the look. */
  ghost predicate Straddled(executed: seq<Task>, heardKind: nat, heardCamera: nat) {
    exists i: nat :: Between(heardKind, heardCamera, i) && i < |executed| && IsLogin(executed[i])
  }

  /**
   After `h` of these tasks the type and the camera were those of the same commands as after `heardKind` and
   `heardCamera`.
   */
  ghost predicate TogetherAt(executed: seq<Task>, heardKind: nat, heardCamera: nat, h: nat)
    requires heardKind <= |executed| && heardCamera <= |executed|
  {
    && h <= |executed| && LastLogin(executed[..h]) == LastLogin(executed[..heardKind])
    && LastSetting(executed[..h]) == LastSetting(executed[..heardCamera])
  }

  ghost predicate Together(executed: seq<Task>, heardKind: nat, heardCamera: nat)
    requires heardKind <= |executed| && heardCamera <= |executed|
  {
    exists h: nat :: TogetherAt(executed, heardKind, heardCamera, h)
  }

  lemma LastLoginStays(tasks: seq<Task>, m: nat, n: nat)
    requires m <= n <= |tasks| && forall i :: m <= i < n ==> !IsLogin(tasks[i])
    ensures LastLogin(tasks[..n]) == LastLogin(tasks[..m])
  {
    var i, j := LastLogin(tasks[..n]), LastLogin(tasks[..m]);
    assert i >= 0 ==> tasks[..n][i] == tasks[i];
    assert j >= 0 ==> tasks[..m][j] == tasks[j] == tasks[..n][j];
    assert 0 <= i < m ==> tasks[..m][i] == tasks[i];
  }

  /** Whether a login counts depends on whether it is reached. */
  lemma LoginReached(tasks: seq<Task>, n: nat, i: nat)
    requires n <= |tasks| && i < |tasks| && IsLogin(tasks[i])
    ensures LastLogin(tasks[..n]) >= i <==> i < n
    ensures LastSetting(tasks[..n]) >= i <==> i < n
  {
    assert IsSetting(tasks[i]);
    assert i < n ==> tasks[..n][i] == tasks[i];
  }

  /** A login between the readings keeps them apart. */
  lemma StraddledApart(executed: seq<Task>, heardKind: nat, heardCamera: nat, i: nat, h: nat)
    requires heardKind <= |executed| && heardCamera <= |executed|
    requires Between(heardKind, heardCamera, i) && i < |executed| && IsLogin(executed[i])
    ensures !TogetherAt(executed, heardKind, heardCamera, h)
  {
    LoginReached(executed, heardKind, i);
    LoginReached(executed, heardCamera, i);
    if h <= |executed| {
      LoginReached(executed, h, i);
    }
  }

  /** The type and the camera that were read stood together at some time if and only if no login straddles the look. */
  lemma TogetherExactly(executed: seq<Task>, heardKind: nat, heardCamera: nat)
    requires heardKind <= |executed| && heardCamera <= |executed| && heardKind <= heardCamera + 1
    requires heardKind == heardCamera + 1 ==> IsLogin(executed[heardCamera])
    ensures Together(executed, heardKind, heardCamera) <==> !Straddled(executed, heardKind, heardCamera)
    ensures !Straddled(executed, heardKind, heardCamera) ==> TogetherAt(executed, heardKind, heardCamera, heardCamera)
  {
    if Straddled(executed, heardKind, heardCamera) {
      var i: nat :| Between(heardKind, heardCamera, i) && i < |executed| && IsLogin(executed[i]);
      forall h: nat ensures !TogetherAt(executed, heardKind, heardCamera, h) {
        StraddledApart(executed, heardKind, heardCamera, i, h);
      }
    } else {
      assert heardKind == heardCamera + 1 ==> Between(heardKind, heardCamera, heardCamera);
      forall i | heardKind <= i < heardCamera ensures !IsLogin(executed[i]) {
        assert Between(heardKind, heardCamera, i);
      }
      LastLoginStays(executed, heardKind, heardCamera);
      assert TogetherAt(executed, heardKind, heardCamera, heardCamera);
    }
  }

  // ----- what that means for the values -----

  /** After `h` of its executed frames the client was set as the look has read it. */
  ghost predicate RightAt(l: Look, executed: seq<Task>, h: nat)
    requires l.camera.Some?
  {
    h <= |executed| && KindSetTo(l.kind, executed[..h]) && CameraSetTo(l.camera.value, executed[..h])
  }

  /** A look that no login straddles is right as of its second reading. */
  lemma WholeLookIsRight(l: Look, executed: seq<Task>)
    requires l.camera.Some? && KindRight(l, executed) && CameraRight(l, executed)
    requires !Straddled(executed, l.heardKind, l.heardCamera)
    ensures RightAt(l, executed, l.heardCamera)
  {
    hide Straddled;
    TogetherExactly(executed, l.heardKind, l.heardCamera);
    SettledByLast(executed[..l.heardKind]);
    SettledByLast(executed[..l.heardCamera]);
    SameLogin(executed, l.heardKind, l.heardCamera);
  }

  lemma SameLogin(executed: seq<Task>, m: nat, n: nat)
    requires m <= |executed| && n <= |executed| && LastLogin(executed[..m]) == LastLogin(executed[..n])
    ensures KindOf(executed[..m], LastLogin(executed[..m])) == KindOf(executed[..n], LastLogin(executed[..n]))
  {
    var i := LastLogin(executed[..m]);
    assert i >= 0 ==> executed[..m][i] == executed[i] == executed[..n][i];
  }

  /**
   A straddled look is right as of one of its readings exactly if the type that was read still stood at the second, or
   the camera that was read stood already at the first.
   */
  lemma LookIsRightExactly(l: Look, executed: seq<Task>)
    requires l.camera.Some? && KindRight(l, executed) && CameraRight(l, executed)
    ensures RightAt(l, executed, l.heardKind) || RightAt(l, executed, l.heardCamera) <==>
              || !Straddled(executed, l.heardKind, l.heardCamera)
              || Connection.Settled(NEWCOMER, executed[..l.heardCamera]).kind == l.kind
              || Connection.Settled(NEWCOMER, executed[..l.heardKind]).camera == l.camera.value
  {
    hide Straddled, Connection.Settled;
    if !Straddled(executed, l.heardKind, l.heardCamera) {
      WholeLookIsRight(l, executed);
    }
  }

  /**
   A look between the two stores of a login has read the new type and the old camera: it is right as of one of its
   readings exactly if the login repeats the type or the camera.
   */
  lemma TornLookIsRightExactly(l: Look, executed: seq<Task>)
    requires l.camera.Some? && KindRight(l, executed) && CameraRight(l, executed) && l.heardKind == l.heardCamera + 1
    ensures Straddled(executed, l.heardKind, l.heardCamera)
    ensures var before, login := Connection.Settled(NEWCOMER, executed[..l.heardCamera]),
              Decode(executed[l.heardCamera].memory);
            && l.kind == login.kind && l.camera.value == before.camera
            && (RightAt(l, executed, l.heardCamera) <==> login.kind == before.kind)
            && (RightAt(l, executed, l.heardKind) <==> login.camera == before.camera)
  {
    var n := l.heardCamera;
    assert Between(l.heardKind, n, n);
    assert executed[..l.heardKind] == executed[..n] + [executed[n]];
    hide Decode;
    Connection.SettledSnoc(NEWCOMER, executed[..n], executed[n]);
    hide Connection.Settled, Straddled, Between;
  }

  // ----- in every run -----

  /**
   Every look of every pass that has read both is of one moment if and only if no login of its client straddles it.
   */
  lemma LooksAreWholeExactly(s: State, a: int, i: nat, l: Look)
    requires Reachable(s) && a in s.passes && i < |s.passes[a]| && l in s.passes[a][i].looks && l.camera.Some?
    ensures l.k in s.logs && KindRight(l, s.logs[l.k].executed) && CameraRight(l, s.logs[l.k].executed)
    ensures var executed := s.logs[l.k].executed;
            && (Together(executed, l.heardKind, l.heardCamera) <==> !Straddled(executed, l.heardKind, l.heardCamera))
            && (!Straddled(executed, l.heardKind, l.heardCamera) ==> RightAt(l, executed, l.heardCamera))
  {
    hide Reachable;
    PassesAreComplete(s, a, i);
    assert LookRight(l, a, s.passes[a][i].camera, s.logs);
    hide Straddled, Together, KindSetTo, CameraSetTo;
    var executed := s.logs[l.k].executed;
    TogetherExactly(executed, l.heardKind, l.heardCamera);
    if !Straddled(executed, l.heardKind, l.heardCamera) {
      WholeLookIsRight(l, executed);
    }
  }

  /**
   Whoever is given a picture was, by its own commands, a PC set to the camera that the sender was set to, at a time
   between the start and the end of the pass, unless a login of its own straddles the look.
   */
  lemma ServedWatchOrLogIn(s: State, a: int, b: int, n: nat)
    requires Reachable(s) && a in s.passes && b in s.out.logs && n in Taken(s.out.logs[b].accepted, a)
    ensures n < |s.passes[a]|
    ensures exists l :: ServedBy(s, a, b, n, l)
              && (RightAt(l, s.logs[b].executed, l.heardCamera)
                  || Straddled(s.logs[b].executed, l.heardKind, l.heardCamera))
  {
    hide Reachable, Taken;
    OnlyWatchersAreServed(s, a, b, n);
    var l :| ServedBy(s, a, b, n, l);
    LooksAreWholeExactly(s, a, n, l);
  }
}
