/**
 * The sliding-window FTP brute-force detector of bhp/detect_FTP_BF.py. Time is an integer number
 * of microseconds (the resolution of Python's datetime) passed in by the caller, and a packet is
 * reduced to whether it has a TCP layer, its destination port, its decoded payload and its source
 * address.
 */
module FtpDetector {
  const FtpPort := 21
  const ThresholdAttempts := 10
  /** timedelta(seconds=60), in microseconds. */
  const TimeWindow := 60_000_000

  datatype Packet = Packet(hasTcp: bool, dport: int, payload: string, srcIp: string)

  /** An alert the detector prints: the source address and the number of attempts in the window. */
  datatype Alert = Alert(srcIp: string, attempts: nat)

  datatype Option<T> = None | Some(value: T)

  /** Python's `sub in s` on strings. */
  predicate Contains(s: string, sub: string)
    decreases |s|
  {
    (|sub| <= |s| && s[..|sub|] == sub) || (s != [] && Contains(s[1..], sub))
  }

  /** A packet counted as a login attempt: TCP to port 21 whose payload mentions USER or PASS. */
  predicate IsLoginAttempt(p: Packet)
  {
    p.hasTcp && p.dport == FtpPort && (Contains(p.payload, "USER") || Contains(p.payload, "PASS"))
  }

  /** The timestamps of ts strictly after cutoff, in their order. */
  function After(ts: seq<int>, cutoff: int): (r: seq<int>)
    ensures |r| <= |ts|
    decreases |ts|
  {
    if ts == [] then []
    else if ts[|ts| - 1] > cutoff then After(ts[..|ts| - 1], cutoff) + [ts[|ts| - 1]]
    else After(ts[..|ts| - 1], cutoff)
  }

  /** x is a subsequence of y: y with some elements left out, order kept. */
  predicate Subsequence(x: seq<int>, y: seq<int>)
    decreases |y|
  {
    if x == [] then true
    else if y == [] then false
    else if x[|x| - 1] == y[|y| - 1] then Subsequence(x[..|x| - 1], y[..|y| - 1])
    else Subsequence(x, y[..|y| - 1])
  }

  /** What the window keeps: exactly the timestamps after the cutoff, in their original order. */
  lemma {:induction false} AfterSpec(ts: seq<int>, cutoff: int)
    ensures forall t :: t in After(ts, cutoff) <==> t in ts && t > cutoff
    ensures Subsequence(After(ts, cutoff), ts)
    decreases |ts|
  {
    if ts != [] {
      var init, last := ts[..|ts| - 1], ts[|ts| - 1];
      AfterSpec(init, cutoff);
      assert ts == init + [last];
      var kept := After(init, cutoff);
      if last > cutoff {
        assert (kept + [last])[..|kept|] == kept;
      } else if kept != [] {
        AfterAbove(init, cutoff);
        assert kept[|kept| - 1] > cutoff;
      }
    }
  }

  /** A timestamp after the cutoff at the end of the list is the last one kept. */
  lemma AfterKeepsLast(ts: seq<int>, t: int, cutoff: int)
    requires t > cutoff
    ensures After(ts + [t], cutoff) == After(ts, cutoff) + [t]
  {
    assert (ts + [t])[..|ts|] == ts;
  }

  /** Every element of the kept list lies after the cutoff. */
  lemma {:induction false} AfterAbove(ts: seq<int>, cutoff: int)
    ensures forall i :: 0 <= i < |After(ts, cutoff)| ==> After(ts, cutoff)[i] > cutoff
    decreases |ts|
  {
    if ts != [] {
      AfterAbove(ts[..|ts| - 1], cutoff);
    }
  }

  /** The source's list before an update, or the empty list defaultdict supplies. */
  function ListOf(attempts: map<string, seq<int>>, ip: string): seq<int>
  {
    if ip in attempts then attempts[ip] else []
  }

  /** The login_attempts update of one packet at time now (bhp/detect_FTP_BF.py:14-29). */
  function Update(attempts: map<string, seq<int>>, p: Packet, now: int): (r: map<string, seq<int>>)
  {
    if IsLoginAttempt(p) then
      var prev := ListOf(attempts, p.srcIp);
      attempts[p.srcIp := After(prev + [now], now - TimeWindow)]
    else attempts
  }

  /** The alert printed after that update, if any. */
  function AlertOf(attempts: map<string, seq<int>>, p: Packet): (a: Option<Alert>)
  {
    if IsLoginAttempt(p) && p.srcIp in attempts && |attempts[p.srcIp]| > ThresholdAttempts
    then Some(Alert(p.srcIp, |attempts[p.srcIp]|)) else None
  }

  /** A packet that is no login attempt leaves every list as it was. */
  lemma IgnoredPacket(attempts: map<string, seq<int>>, p: Packet, now: int)
    requires !IsLoginAttempt(p)
    ensures Update(attempts, p, now) == attempts && AlertOf(Update(attempts, p, now), p) == None
  {
  }

  /**
   * A login attempt appends now to its source's list and then keeps exactly the timestamps of the
   * last 60 seconds, in order: the new one always survives, and other sources' lists are untouched.
   */
  lemma LoginAttemptUpdate(attempts: map<string, seq<int>>, p: Packet, now: int)
    requires IsLoginAttempt(p)
    ensures var r := Update(attempts, p, now);
      var prev := ListOf(attempts, p.srcIp);
      && p.srcIp in r
      && r[p.srcIp] == After(prev, now - TimeWindow) + [now]
      && (forall t :: t in r[p.srcIp] <==> (t in prev || t == now) && t > now - TimeWindow)
      && Subsequence(r[p.srcIp], prev + [now])
      && r.Keys == attempts.Keys + {p.srcIp}
      && (forall ip :: ip in attempts && ip != p.srcIp ==> r[ip] == attempts[ip])
  {
    var prev := ListOf(attempts, p.srcIp);
    AfterKeepsLast(prev, now, now - TimeWindow);
    AfterSpec(prev + [now], now - TimeWindow);
  }

  /** An alert is raised exactly when the pruned list of a login attempt's source holds more than ten entries. */
  lemma AlertRule(attempts: map<string, seq<int>>, p: Packet, now: int)
    ensures var r := Update(attempts, p, now);
      AlertOf(r, p).Some? <==> IsLoginAttempt(p) && |r[p.srcIp]| > ThresholdAttempts
  {
  }

  /** The table after a sequence of (packet, arrival time) pairs, in order. */
  function Feed(attempts: map<string, seq<int>>, ps: seq<(Packet, int)>): (r: map<string, seq<int>>)
    decreases |ps|
  {
    if ps == [] then attempts
    else Update(Feed(attempts, ps[..|ps| - 1]), ps[|ps| - 1].0, ps[|ps| - 1].1)
  }

  /** The arrival times of ps. */
  function Times(ps: seq<(Packet, int)>): (ts: seq<int>)
    ensures |ts| == |ps| && forall i :: 0 <= i < |ps| ==> ts[i] == ps[i].1
  {
    seq(|ps|, i requires 0 <= i < |ps| => ps[i].1)
  }

  lemma {:induction false} AfterConcat(xs: seq<int>, ys: seq<int>, cutoff: int)
    ensures After(xs + ys, cutoff) == After(xs, cutoff) + After(ys, cutoff)
    decreases |ys|
  {
    if ys == [] {
      assert xs + ys == xs;
    } else {
      var init := ys[..|ys| - 1];
      AfterConcat(xs, init, cutoff);
      assert (xs + ys)[..|xs + ys| - 1] == xs + init;
    }
  }

  lemma {:induction false} AfterAll(ts: seq<int>, cutoff: int)
    requires forall i :: 0 <= i < |ts| ==> ts[i] > cutoff
    ensures After(ts, cutoff) == ts
    decreases |ts|
  {
    if ts != [] {
      AfterAll(ts[..|ts| - 1], cutoff);
    }
  }

  /** ps is a burst of login attempts from ip, in time order, all within one window of the last. */
  predicate Burst(ps: seq<(Packet, int)>, ip: string)
  {
    && (forall i :: 0 <= i < |ps| ==> IsLoginAttempt(ps[i].0) && ps[i].0.srcIp == ip)
    && (forall i, j :: 0 <= i <= j < |ps| ==> ps[i].1 <= ps[j].1)
    && (|ps| > 0 ==> ps[|ps| - 1].1 - ps[0].1 < TimeWindow)
  }

  lemma BurstPrefix(ps: seq<(Packet, int)>, ip: string)
    requires Burst(ps, ip) && ps != []
    ensures Burst(ps[..|ps| - 1], ip)
    ensures var ts := Times(ps[..|ps| - 1]);
      forall i :: 0 <= i < |ts| ==> ts[i] > ps[|ps| - 1].1 - TimeWindow
  {
    var init := ps[..|ps| - 1];
    assert forall i :: 0 <= i < |init| ==> init[i] == ps[i];
    if init != [] {
      assert ps[0].1 <= init[|init| - 1].1 <= ps[|ps| - 1].1;
    }
  }

  /** One more attempt of the burst: the kept times so far survive and the new one is appended. */
  lemma BurstStep(prev: seq<int>, pre: seq<int>, ts: seq<int>, t: int, all: seq<int>)
    requires prev == pre + ts && all == ts + [t]
    requires forall i :: 0 <= i < |ts| ==> ts[i] > t - TimeWindow
    ensures After(prev, t - TimeWindow) + [t] == After(pre, t - TimeWindow) + all
  {
    AfterConcat(pre, ts, t - TimeWindow);
    AfterAll(ts, t - TimeWindow);
  }

  /** ys ends xs. */
  predicate EndsWith(xs: seq<int>, ys: seq<int>)
  {
    |xs| >= |ys| && xs[|xs| - |ys|..] == ys
  }

  /** Every attempt of a burst is still in its source's window when the burst ends: the times of the burst end the list. */
  lemma {:induction false} BurstKept(attempts: map<string, seq<int>>, ps: seq<(Packet, int)>, ip: string)
    requires Burst(ps, ip) && ps != []
    ensures ip in Feed(attempts, ps) && EndsWith(Feed(attempts, ps)[ip], Times(ps))
    decreases |ps|
  {
    var init := ps[..|ps| - 1];
    BurstPrefix(ps, ip);
    assert EndsWith(ListOf(Feed(attempts, init), ip), Times(init)) by {
      if init != [] {
        BurstKept(attempts, init, ip);
      }
    }
    BurstTail(attempts, ps, ip);
  }

  /** The last attempt of a burst, applied to a list that ends with the earlier attempts' times. */
  lemma BurstTail(attempts: map<string, seq<int>>, ps: seq<(Packet, int)>, ip: string)
    requires ps != [] && IsLoginAttempt(ps[|ps| - 1].0) && ps[|ps| - 1].0.srcIp == ip
    requires EndsWith(ListOf(Feed(attempts, ps[..|ps| - 1]), ip), Times(ps[..|ps| - 1]))
    requires var ts := Times(ps[..|ps| - 1]);
      forall i :: 0 <= i < |ts| ==> ts[i] > ps[|ps| - 1].1 - TimeWindow
    ensures ip in Feed(attempts, ps) && EndsWith(Feed(attempts, ps)[ip], Times(ps))
  {
    var init, p, t := ps[..|ps| - 1], ps[|ps| - 1].0, ps[|ps| - 1].1;
    var before := Feed(attempts, init);
    var prev := ListOf(before, ip);
    var ts := Times(init);
    var pre := prev[..|prev| - |ts|];
    assert prev == pre + ts;
    var all := Times(ps);
    assert all == ts + [t];
    var after := Update(before, p, t);
    LoginAttemptUpdate(before, p, t);
    BurstStep(prev, pre, ts, t, all);
    var kept := After(pre, t - TimeWindow);
    assert after[ip] == kept + all;
    assert (kept + all)[|kept|..] == all;
  }

  /** Eleven login attempts from one source inside a minute make the last of them raise an alert. */
  lemma BurstAlerts(attempts: map<string, seq<int>>, ps: seq<(Packet, int)>, ip: string)
    requires Burst(ps, ip) && |ps| > ThresholdAttempts
    ensures AlertOf(Feed(attempts, ps), ps[|ps| - 1].0).Some?
  {
    BurstKept(attempts, ps, ip);
  }

  /** The detector with its table of login attempts per source address. */
  class Detector {
    var loginAttempts: map<string, seq<int>>

    constructor ()
      ensures loginAttempts == map[]
    {
      loginAttempts := map[];
    }

    /** The list comprehension of bhp/detect_FTP_BF.py:26-29. */
    static method Prune(ts: seq<int>, cutoff: int) returns (kept: seq<int>)
      ensures kept == After(ts, cutoff)
    {
      kept := [];
      var i := 0;
      while i < |ts|
        invariant 0 <= i <= |ts|
        invariant kept == After(ts[..i], cutoff)
      {
        assert ts[..i + 1][..i] == ts[..i];
        if ts[i] > cutoff {
          kept := kept + [ts[i]];
        }
        i := i + 1;
      }
      assert ts[..|ts|] == ts;
    }

    /** detect_ftp_brute_force(packet) at time now; the alert it would print is returned. */
    method DetectFtpBruteForce(p: Packet, now: int) returns (alert: Option<Alert>)
      modifies this
      ensures loginAttempts == Update(old(loginAttempts), p, now)
      ensures alert == AlertOf(loginAttempts, p)
    {
      alert := None;
      if p.hasTcp && p.dport == FtpPort {
        if Contains(p.payload, "USER") || Contains(p.payload, "PASS") {
          var srcIp := p.srcIp;
          var timestamp := now;
          var list := if srcIp in loginAttempts then loginAttempts[srcIp] else [];
          loginAttempts := loginAttempts[srcIp := list + [timestamp]];
          var kept := Prune(loginAttempts[srcIp], timestamp - TimeWindow);
          loginAttempts := loginAttempts[srcIp := kept];
          if |loginAttempts[srcIp]| > ThresholdAttempts {
            alert := Some(Alert(srcIp, |loginAttempts[srcIp]|));
          }
        }
      }
    }
  }
}
