// toolCallLimiter: two token buckets and a count of running calls, changed by every tool call.
module ToolLimiter {
  import opened Identity
  import opened Wrappers
  import opened TokenBucket

  const CALL_TOOL: string := "tools/call"

  datatype ErrKind = ErrGlobalRate | ErrSubjectRate | ErrInflight

  datatype Config = Config(global: Limit, subject: Limit, maxInflight: nat)

  datatype Gates = Gates(global: Bucket, perSubject: map<string, Bucket>, inflight: int)

  function NewGates(c: Config): Gates {
    Gates(Full(c.global), map[], 0)
  }

  function BucketFor(c: Config, g: Gates, subject: string): Bucket {
    if subject in g.perSubject then g.perSubject[subject] else Full(c.subject)
  }

  function AskGlobal(c: Config, g: Gates, now: real): Gates {
    g.(global := Take(c.global, g.global, now))
  }

  function AskSubject(c: Config, g: Gates, subject: string, now: real): Gates {
    g.(perSubject := g.perSubject[subject := Take(c.subject, BucketFor(c, g, subject), now)])
  }

  predicate HasSlot(c: Config, g: Gates) {
    c.maxInflight - g.inflight >= 1
  }

  // One call taken through the gates without interruption, the clock read at each of the first two.
  function Acquired(c: Config, g: Gates, subject: string, atGlobal: real, atSubject: real): (Gates, Option<ErrKind>) {
    var g1 := AskGlobal(c, g, atGlobal);
    if !Allows(c.global, g.global, atGlobal) then (g1, Some(ErrGlobalRate))
    else
      var g2 := AskSubject(c, g1, subject, atSubject);
      if !Allows(c.subject, BucketFor(c, g, subject), atSubject) then (g2, Some(ErrSubjectRate))
      else if !HasSlot(c, g2) then (g2, Some(ErrInflight))
      else (g2.(inflight := g2.inflight + 1), None)
  }

  datatype Reply<T> = Reply(answer: T) | RateLimited

  class ToolCallLimiter {
    const cfg: Config
    var global: Bucket
    var perSubject: map<string, Bucket>
    var inflight: int

    constructor (cfg: Config)
      ensures this.cfg == cfg && View() == NewGates(cfg)
    {
      this.cfg := cfg;
      global := Full(cfg.global);
      perSubject := map[];
      inflight := 0;
    }

    function View(): Gates
      reads this
    {
      Gates(global, perSubject, inflight)
    }

    method Allow(l: Limit, b: Bucket, now: real) returns (ok: bool, b': Bucket)
      ensures ok <==> Allows(l, b, now)
      ensures b' == Take(l, b, now)
    {
      var tokens := b.tokens + (now - b.last) * l.rate;
      if tokens > l.burst as real {
        tokens := l.burst as real;
      }
      assert tokens == Level(l, b, now);
      tokens := tokens - 1.0;
      if tokens >= 0.0 {
        return true, Bucket(tokens, now);
      }
      return false, b;
    }

    method LimiterFor(subject: string) returns (lim: Bucket)
      modifies this`perSubject
      ensures lim == BucketFor(cfg, old(View()), subject)
      ensures perSubject == old(perSubject)[subject := lim]
    {
      if subject !in perSubject {
        lim := Full(cfg.subject);
        perSubject := perSubject[subject := lim];
      } else {
        lim := perSubject[subject];
        assert perSubject[subject := lim] == perSubject;
      }
    }

    method Acquire(subject: string, atGlobal: real, atSubject: real) returns (kind: Option<ErrKind>)
      modifies this
      ensures (View(), kind) == Acquired(cfg, old(View()), subject, atGlobal, atSubject)
    {
      var ok;
      ok, global := Allow(cfg.global, global, atGlobal);
      if !ok {
        return Some(ErrGlobalRate);
      }
      var lim := LimiterFor(subject);
      ok, lim := Allow(cfg.subject, lim, atSubject);
      perSubject := perSubject[subject := lim];
      assert perSubject == old(perSubject)[subject := lim];
      if !ok {
        return Some(ErrSubjectRate);
      }
      if cfg.maxInflight - inflight < 1 {
        return Some(ErrInflight);
      }
      inflight := inflight + 1;
      return None;
    }

    method Release()
      modifies this`inflight
      ensures inflight == old(inflight) - 1
    {
      inflight := inflight - 1;
    }

    // A call served without interruption; next is what the wrapped handler answers.
    method Middleware<T>(name: string, identity: Option<string>, next: T, atGlobal: real,
                         atSubject: real) returns (reply: Reply<T>)
      modifies this
      ensures name != CALL_TOOL ==> reply == Reply.Reply(next) && View() == old(View())
      ensures name == CALL_TOOL ==>
                var (gates, kind) := Acquired(cfg, old(View()), SubjectOf(identity), atGlobal, atSubject);
                && (reply == if kind.None? then Reply.Reply(next) else RateLimited)
                && View() == gates.(inflight := old(inflight))
    {
      if name != CALL_TOOL {
        return Reply.Reply(next);
      }
      var kind := Acquire(SubjectOf(identity), atGlobal, atSubject);
      if kind != None {
        return RateLimited;
      }
      reply := Reply.Reply(next);
      Release();
    }
  }
}
