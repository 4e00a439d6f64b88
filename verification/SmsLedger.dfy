/** Which steps end an SMS message, and how: every counter of the flow is the number of steps of one kind. */
module SmsLedger {
  import opened Wrappers
  import opened Config
  import opened Schema
  import opened Sms
  import opened SmsFlow

  /** A step of a handler call at program point `pc`. */
  predicate ActsAt(s: Flow, ch: Choice, pc: Pc) {
    ch.Act? && ch.i < |s.flights| && s.flights[ch.i].InHandler? && s.flights[ch.i].pc == pc
  }

  /** A step of the dead-letter middleware, after the retry loop gave up. */
  predicate ActsGivenUp(s: Flow, ch: Choice) {
    ch.Act? && ch.i < |s.flights| && s.flights[ch.i].GivenUp?
  }

  /** The provider answered 2xx and the session committed. */
  predicate Delivers(s: Flow, ch: Choice) {
    ActsAt(s, ch, Posting) && ch.post.Response? && 200 <= ch.post.code < 300 && ch.ok
  }

  /** A dead-letter publish, of the handler or of the middleware, went through. */
  predicate DeadLetters(s: Flow, ch: Choice) {
    ch.Act? && ch.ok && (ActsAt(s, ch, ToDeadLetter) || ActsGivenUp(s, ch))
  }

  /** The middleware's dead-letter publish raised. */
  predicate Drops(s: Flow, ch: Choice) {
    ActsGivenUp(s, ch) && !ch.ok
  }

  /** The republish of the handler went through. */
  predicate Requeues(s: Flow, ch: Choice) {
    ch.Act? && ch.i < |s.flights| && s.flights[ch.i].InHandler? && s.flights[ch.i].pc.ToQueue? && ch.ok
  }

  /** Each step moves exactly the counters of its kind. */
  lemma StepBooks(c: Settings, s: Flow, ch: Choice)
    requires Enabled(s, ch)
    ensures var s' := Apply(c, s, ch);
            && s'.delivered == s.delivered + One(Delivers(s, ch))
            && s'.dead == s.dead + One(DeadLetters(s, ch))
            && s'.dropped == s.dropped + One(Drops(s, ch))
            && s'.expired == s.expired + One(ch.Expire?)
            && s'.takes == s.takes + One(ch.Take?)
            && s'.queued == s.queued + One(ch.Publish?) - One(ch == Take(true))
            && s'.delayed == s.delayed + One(Requeues(s, ch)) - One(ch == Take(false)) - One(ch.Expire?)
  {
  }

  /** How many steps of the run are of the given kind. */
  function Steps(c: Settings, s: Flow, chs: seq<Choice>, kind: (Flow, Choice) -> bool): nat
    requires Valid(c, s, chs)
    decreases |chs|
  {
    if chs == [] then 0 else One(kind(s, chs[0])) + Steps(c, Apply(c, s, chs[0]), chs[1..], kind)
  }

  /** Over every run, for any number of messages: the messages delivered, dead-lettered and dropped are the
      accepted posts committed, the dead-letter publishes that went through, and the middleware's
      dead-letter publishes that raised; those on their way back are the republishes neither taken nor
      expired. */
  lemma {:induction false} RunBooks(c: Settings, s: Flow, chs: seq<Choice>)
    requires Valid(c, s, chs)
    ensures var s' := Exec(c, s, chs);
            && s'.delivered == s.delivered + Steps(c, s, chs, Delivers)
            && s'.dead == s.dead + Steps(c, s, chs, DeadLetters)
            && s'.dropped == s.dropped + Steps(c, s, chs, Drops)
            && s'.expired == s.expired + Steps(c, s, chs, (f: Flow, ch: Choice) => ch.Expire?)
            && s'.takes == s.takes + Steps(c, s, chs, (f: Flow, ch: Choice) => ch.Take?)
            && s'.delayed == s.delayed + Steps(c, s, chs, Requeues)
                             - Steps(c, s, chs, (f: Flow, ch: Choice) => ch == Take(false) || ch.Expire?)
    decreases |chs|
  {
    hide Apply, Enabled, Delivers, DeadLetters, Drops, Requeues;
    if chs == [] {
    } else {
      StepBooks(c, s, chs[0]);
      RunBooks(c, Apply(c, s, chs[0]), chs[1..]);
    }
  }
}
