/**
 How many reset links of a user work at once. Asking for a link supersedes the older ones in one
 statement and inserts the new one in another, with nothing between them to keep a second request
 out. These lemmas say exactly when that leaves one link, and when two.
 */
module SessionResets {
  import opened Common
  import opened Sessions
  import opened SessionSafety
  import opened SessionTheorems
  import SessionRevocation

  ghost predicate Unused(s: Sys, i: Id, u: UserId) {
    i < |s.resets| && s.resets[i].user == u && !s.resets[i].used
  }

  /** A link that would be taken now: the user's, not used and not expired. */
  ghost predicate Open(s: Sys, i: Id, u: UserId) {
    Unused(s, i, u) && s.clock <= s.resets[i].expires
  }

  ghost predicate OneLink(s: Sys, u: UserId) {
    forall i, j :: Unused(s, i, u) && Unused(s, j, u) ==> i == j
  }

  /** Handler f has superseded the user's links and is about to insert its own. */
  ghost predicate Inserting(s: Sys, f: FlightId, u: UserId) {
    f in s.flights && s.flights[f].ForgotInsert? && s.flights[f].user == u
  }

  ghost predicate OneInserting(s: Sys, u: UserId) {
    forall f, g :: Inserting(s, f, u) && Inserting(s, g, u) ==> f == g
  }

  /** One link at most, counting the ones about to be inserted. */
  ghost predicate Settled(s: Sys, u: UserId) {
    OneLink(s, u) && OneInserting(s, u) && forall f, i :: !(Inserting(s, f, u) && Unused(s, i, u))
  }

  ghost predicate Supersedes(s: Sys, e: Event, u: UserId) {
    e.Next? && e.f in s.flights && s.flights[e.f].ForgotSupersede? && s.flights[e.f].user == u
  }

  // --- What one step does to the links ---------------------------------------------------------

  lemma OtherStatements(s: Sys, f: FlightId)
    requires f in s.flights
    requires var fl := s.flights[f]; !fl.ResetCommit? && !fl.ForgotSupersede? && !fl.ForgotInsert?
    ensures Advance(s, f).resets == s.resets
    ensures forall u :: !Inserting(Advance(s, f), f, u)
  {}

  lemma InsertsNext(s: Sys, f: FlightId, u: UserId)
    requires Inserting(s, f, u)
    ensures var s' := Advance(s, f);
      s'.resets == s.resets + [Reset(u, s.clock + s.flights[f].validFor, false)] && s'.clock == s.clock
      && s'.accounts == s.accounts && f !in s'.flights
  {}

  /** Nothing but an insertion adds an unused link, and nothing but superseding starts one. */
  lemma NoMoreLinks(s: Sys, e: Event, u: UserId)
    requires Inv(s) && !(e.Next? && Inserting(s, e.f, u))
    ensures forall i :: Unused(Apply(s, e), i, u) ==> Unused(s, i, u)
    ensures Supersedes(s, e, u) ==> forall i :: !Unused(Apply(s, e), i, u)
    ensures !Supersedes(s, e, u) ==> forall f :: Inserting(Apply(s, e), f, u) ==> Inserting(s, f, u)
  {
    if e.Next? && e.f in s.flights {
      var s', f := Apply(s, e), e.f;
      forall g | g != f ensures Inserting(s', g, u) <==> Inserting(s, g, u) { OthersSame(s, f, g); }
      if s.flights[f].ForgotInsert? {
        InsertsNext(s, f, s.flights[f].user);
      } else if s.flights[f].ResetCommit? {
        assert FlightOk(s, s.flights[f]);
      } else if !s.flights[f].ForgotSupersede? {
        OtherStatements(s, f);
      }
    }
  }

  /**
   At the inserting statement, and there alone, a user comes to have two links: exactly when one
   of his is unused as it runs. Every other event of every handler keeps it at one.
   */
  lemma InsertExactly(s: Sys, e: Event, u: UserId)
    requires Inv(s) && OneLink(s, u)
    ensures OneLink(Apply(s, e), u) <==> !(e.Next? && Inserting(s, e.f, u) && exists i :: Unused(s, i, u))
  {
    if e.Next? && Inserting(s, e.f, u) {
      var s', n := Apply(s, e), |s.resets|;
      InsertsNext(s, e.f, u);
      assert Unused(s', n, u);
      forall i: Id | i < n ensures Unused(s', i, u) <==> Unused(s, i, u) {}
    } else {
      NoMoreLinks(s, e, u);
    }
  }

  lemma SettledStep(s: Sys, e: Event, u: UserId)
    requires Inv(s) && Settled(s, u)
    ensures OneInserting(Apply(s, e), u) ==> Settled(Apply(s, e), u)
    ensures !Supersedes(s, e, u) ==> Settled(Apply(s, e), u)
  {
    var s' := Apply(s, e);
    InsertExactly(s, e, u);
    if e.Next? && Inserting(s, e.f, u) {
      InsertsNext(s, e.f, u);
      forall g ensures !Inserting(s', g, u) {
        if g != e.f { OthersSame(s, e.f, g); assert !Inserting(s, g, u); }
      }
    } else {
      NoMoreLinks(s, e, u);
    }
  }

  // --- From a handler's own supersede to its insertion -------------------------------------------

  /**
   Over the whole window between the two statements: the new link ends up beside another one that
   works exactly when another request's link was inserted in the window and still does.
   */
  lemma WindowExactly(s: Sys, f: FlightId, es: seq<Event>)
    requires Inv(s) && f in s.flights && s.flights[f].ForgotSupersede?
    requires var s2, fl := Run(Advance(s, f), es), s.flights[f];
      f in s2.flights && s2.flights[f] == ForgotInsert(fl.user, fl.validFor)
    ensures var s2, u := Run(Advance(s, f), es), s.flights[f].user;
      var s3, n := Advance(s2, f), |s2.resets|;
      Open(s3, n, u)
      && ((exists i :: i != n && Open(s3, i, u)) <==> exists i :: |s.resets| <= i < n && Open(s2, i, u))
  {
    var s1, s2, u := Advance(s, f), Run(Advance(s, f), es), s.flights[f].user;
    var s3, n := Advance(s2, f), |s2.resets|;
    AdvanceStep(s, f);
    RunStep(s1, es);
    SupersededStay(s, s1, s2, f);
    InsertsNext(s2, f, u);
    assert Open(s3, n, u);
    forall i: Id | i < n ensures Open(s3, i, u) <==> Open(s2, i, u) {}
  }

  /** Links from before a handler's supersede do not come back. */
  lemma SupersededStay(s: Sys, s1: Sys, s2: Sys, f: FlightId)
    requires f in s.flights && s.flights[f].ForgotSupersede? && s1 == Advance(s, f) && Grows(s1, s2)
    ensures |s.resets| <= |s2.resets| && forall i: Id :: i < |s.resets| ==> !Unused(s2, i, s.flights[f].user)
  {
    assert s1.resets == Supersede(s.resets, s.flights[f].user);
  }

  // --- Over runs ------------------------------------------------------------------------------------

  /** No request for a link of u supersedes along the run. */
  ghost predicate NoSupersede(s: Sys, es: seq<Event>, u: UserId) {
    forall k :: 0 <= k < |es| ==> !Supersedes(Run(s, es[..k]), es[k], u)
  }

  lemma {:induction false} SettledRun(s: Sys, es: seq<Event>, u: UserId)
    requires Inv(s) && Settled(s, u) && NoSupersede(s, es, u)
    ensures Settled(Run(s, es), u)
  {
    if es != [] {
      var n := |es| - 1;
      forall k | 0 <= k < n ensures !Supersedes(Run(s, es[..n][..k]), es[..n][k], u) {
        assert es[..n][..k] == es[..k];
      }
      SettledRun(s, es[..n], u);
      RunStep(s, es[..n]);
      SettledStep(Run(s, es[..n]), es[n], u);
    }
  }

  ghost predicate Doubles(s: Sys, u: UserId) {
    exists es :: NoSupersede(s, es, u) && !OneLink(Run(s, es), u)
  }

  lemma RunTwo(s: Sys, a: Event, b: Event)
    ensures Run(s, [a, b]) == Apply(Apply(s, a), b)
  {
    assert [a, b][..1] == [a];
    SessionRevocation.RunOne(s, a);
  }

  /** Two insertions on their way, and both arrive. */
  lemma BothInsert(s: Sys, f: FlightId, g: FlightId, u: UserId)
    requires f != g && Inserting(s, f, u) && Inserting(s, g, u)
    ensures var t, n := Apply(Apply(s, Next(f)), Next(g)), |s.resets|;
      |t.resets| == n + 2 && Open(t, n, u) && Open(t, n + 1, u)
      && t.clock == s.clock && t.accounts == s.accounts
    ensures NoSupersede(s, [Next(f), Next(g)], u)
  {
    var s1 := Advance(s, f);
    InsertsNext(s, f, u);
    OthersSame(s, f, g);
    InsertsNext(s1, g, u);
    var es := [Next(f), Next(g)];
    assert es[..0] == [] && es[..1] == [Next(f)] && Run(s, []) == s;
    SessionRevocation.RunOne(s, Next(f));
  }

  /**
   With one link at most to begin with, and no further request superseding, a user can come to have
   two exactly when two insertions of his are on their way, or one while a link of his is unused.
   */
  lemma DoublesExactly(s: Sys, u: UserId)
    requires Inv(s) && OneLink(s, u)
    ensures Doubles(s, u) <==>
      (exists f, g :: f != g && Inserting(s, f, u) && Inserting(s, g, u))
      || (exists f, i :: Inserting(s, f, u) && Unused(s, i, u))
  {
    if f, g :| f != g && Inserting(s, f, u) && Inserting(s, g, u) {
      BothInsert(s, f, g, u);
      RunTwo(s, Next(f), Next(g));
      assert !OneLink(Run(s, [Next(f), Next(g)]), u);
      assert Doubles(s, u);
    } else if f, i :| Inserting(s, f, u) && Unused(s, i, u) {
      InsertExactly(s, Next(f), u);
      SessionRevocation.RunOne(s, Next(f));
      assert NoSupersede(s, [Next(f)], u) by { assert [Next(f)][..0] == [] && Run(s, []) == s; }
      assert Doubles(s, u);
    } else {
      forall es | NoSupersede(s, es, u) ensures OneLink(Run(s, es), u) { SettledRun(s, es, u); }
    }
  }

  /** At no moment of the run are two requests for a link of u past their superseding statement. */
  ghost predicate OneAtATime(s: Sys, es: seq<Event>, u: UserId) {
    forall k :: 0 <= k <= |es| ==> OneInserting(Run(s, es[..k]), u)
  }

  lemma {:induction false} SettledAlone(s: Sys, es: seq<Event>, u: UserId)
    requires Inv(s) && Settled(s, u) && OneAtATime(s, es, u)
    ensures Settled(Run(s, es), u)
  {
    if es != [] {
      var n := |es| - 1;
      forall k | 0 <= k <= n ensures OneInserting(Run(s, es[..n][..k]), u) { assert es[..n][..k] == es[..k]; }
      SettledAlone(s, es[..n], u);
      RunStep(s, es[..n]);
      assert es[..|es|] == es;
      SettledStep(Run(s, es[..n]), es[n], u);
    }
  }

  /** Requests that do not overlap leave a user one unused link at most, whatever else interleaves. */
  lemma OneLinkAlone(ttl: nat, es: seq<Event>, u: UserId)
    requires OneAtATime(Empty(ttl), es, u)
    ensures OneLink(Run(Empty(ttl), es), u)
  {
    ReachableInv(ttl, []);
    SettledAlone(Empty(ttl), es, u);
  }

  // --- Two requests, two links ------------------------------------------------------------------------

  function Overlapping(f: FlightId, g: FlightId, u: UserId, validFor: nat): seq<Event> {
    [Start(f, CallForgot(u, validFor)), Start(g, CallForgot(u, validFor)), Next(f), Next(g), Next(f), Next(g)]
  }

  /** Both are admitted. */
  lemma BothLoad(s: Sys, f: FlightId, g: FlightId, u: UserId, validFor: nat, s1: Sys, s2: Sys, s3: Sys, s4: Sys)
    requires f != g && f !in s.flights && f !in s.results && g !in s.flights && g !in s.results
    requires u in s.accounts && s.accounts[u].active
    requires s1 == Apply(s, Start(f, CallForgot(u, validFor))) && s2 == Apply(s1, Start(g, CallForgot(u, validFor)))
    requires s3 == Apply(s2, Next(f)) && s4 == Apply(s3, Next(g))
    ensures s4 == Goto(Goto(s, f, ForgotSupersede(u, validFor)), g, ForgotSupersede(u, validFor))
  {
    assert s2 == Goto(Goto(s, f, ForgotLoad(u, validFor)), g, ForgotLoad(u, validFor));
    assert s3 == Goto(s2, f, ForgotSupersede(u, validFor));
    var supersede := ForgotSupersede(u, validFor);
    assert s4.flights == s.flights[f := supersede][g := supersede];
  }

  /** Both supersede before either inserts. */
  lemma BothSupersede(s: Sys, f: FlightId, g: FlightId, u: UserId, validFor: nat)
    requires f != g && f !in s.flights && f !in s.results && g !in s.flights && g !in s.results
    requires u in s.accounts && s.accounts[u].active
    ensures var t := Run(s, Overlapping(f, g, u, validFor));
      Inserting(t, f, u) && Inserting(t, g, u) && |t.resets| == |s.resets|
      && t.clock == s.clock && t.accounts == s.accounts
  {
    var es := Overlapping(f, g, u, validFor);
    assert es[..0] == [] && es[..6] == es;
    var s1 := Walk(s, es, 0, s);
    var s2 := Walk(s, es, 1, s1);
    var s3 := Walk(s, es, 2, s2);
    var s4 := Walk(s, es, 3, s3);
    BothLoad(s, f, g, u, validFor, s1, s2, s3, s4);
    var s5 := Walk(s, es, 4, s4);
    var s6 := Walk(s, es, 5, s5);
    AfterSupersede(s4, f, g, u);
  }

  lemma AfterSupersede(s: Sys, f: FlightId, g: FlightId, u: UserId)
    requires f != g && f in s.flights && s.flights[f].ForgotSupersede? && s.flights[f].user == u
    requires g in s.flights && s.flights[g].ForgotSupersede? && s.flights[g].user == u
    ensures var t := Apply(Apply(s, Next(f)), Next(g));
      Inserting(t, f, u) && Inserting(t, g, u) && |t.resets| == |s.resets|
      && t.clock == s.clock && t.accounts == s.accounts
  {}

  /** Whatever else is going on, two overlapping requests of an active account end in two open links. */
  lemma TwoRequestsTwoLinks(s: Sys, f: FlightId, g: FlightId, u: UserId, validFor: nat)
    requires f != g && f !in s.flights && f !in s.results && g !in s.flights && g !in s.results
    requires u in s.accounts && s.accounts[u].active
    ensures var t, n := Run(s, Overlapping(f, g, u, validFor) + [Next(f)] + [Next(g)]), |s.resets|;
      Open(t, n, u) && Open(t, n + 1, u) && t.clock == s.clock && t.accounts == s.accounts
  {
    var es := Overlapping(f, g, u, validFor);
    BothSupersede(s, f, g, u, validFor);
    BothInsert(Run(s, es), f, g, u);
    assert (es + [Next(f)])[..|es|] == es;
    assert (es + [Next(f)] + [Next(g)])[..|es| + 1] == es + [Next(f)];
  }

  function Redeeming(h: FlightId, i: Id, password: nat): seq<Event> {
    [Start(h, CallReset(i, password)), Next(h), Next(h)]
  }

  lemma RedeemsOpen(s: Sys, h: FlightId, i: Id, u: UserId, password: nat)
    requires h !in s.flights && h !in s.results
    requires Open(s, i, u) && u in s.accounts && s.accounts[u].active
    ensures var t := Run(s, Redeeming(h, i, password));
      t.redeemed == s.redeemed + [i] && t.resets == s.resets[i := s.resets[i].(used := true)]
      && t.clock == s.clock && u in t.accounts && t.accounts[u].active && t.accounts[u].password == password
      && t.flights == s.flights && t.results == s.results[h := Done]
  {
    var es := Redeeming(h, i, password);
    assert es[..0] == [] && Run(s, []) == s;
    var s1 := Goto(s, h, ResetLoad(i, password));
    assert es[..1][..0] == es[..0] && Run(s, es[..1]) == s1;
    var s2 := Goto(s1, h, ResetCommit(i, u, password));
    assert es[..2][..1] == es[..1] && Run(s, es[..2]) == s2;
    assert es[..3][..2] == es[..2] && es[..3] == es;
    assert s2.flights - {h} == s.flights;
  }

  /** And two open links are two passwords set, one after the other. */
  lemma BothRedeemed(s: Sys, h: FlightId, k: FlightId, i: Id, j: Id, u: UserId, first: nat, second: nat)
    requires h != k && h !in s.flights && h !in s.results && k !in s.flights && k !in s.results
    requires i != j && Open(s, i, u) && Open(s, j, u) && u in s.accounts && s.accounts[u].active
    ensures var t := Run(Run(s, Redeeming(h, i, first)), Redeeming(k, j, second));
      t.redeemed == s.redeemed + [i, j] && u in t.accounts && t.accounts[u].password == second
  {
    RedeemsOpen(s, h, i, u, first);
    RedeemsOpen(Run(s, Redeeming(h, i, first)), k, j, u, second);
  }
}
