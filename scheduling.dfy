/** The robot's job registry: saving the robot form writes a new configuration and
    replaces every registered cron job by one job that runs the robot with it; the
    dashboard and the status panel read the robot as active exactly when a job is
    registered. */
module Scheduling {

  import opened Wrappers
  import opened Text
  import opened Robot

  /** A time of day as the form's time picker gives it. */
  datatype Clock = Clock(hour: nat, minute: nat)

  predicate ValidClock(c: Clock) {
    c.hour < 24 && c.minute < 60
  }

  /** A number below 100 as two decimal digits, zero-padded. */
  function TwoDigits(n: nat): (r: string)
    requires n < 100
    ensures |r| == 2 && AllDigits(r) && DigitsValue(r) == n
  {
    var r := [DigitChar(n / 10), DigitChar(n % 10)];
    assert r[..1] == [DigitChar(n / 10)] && r[..1][..0] == [];
    assert DigitsValue(r[..1]) == n / 10;
    r
  }

  /** `strftime("%H:%M")`. */
  function FormatClock(c: Clock): (s: string)
    requires ValidClock(c)
    ensures |s| == 5 && s[2] == ':'
  {
    TwoDigits(c.hour) + ":" + TwoDigits(c.minute)
  }

  /** `strptime(s, "%H:%M")` on zero-padded fields: two digits of an hour below 24,
      a colon, two digits of a minute below 60; anything else is rejected. */
  function ParseClock(s: string): (r: Option<Clock>)
    ensures r.Some? ==> ValidClock(r.value)
  {
    if |s| == 5 && AllDigits(s[..2]) && s[2] == ':' && AllDigits(s[3..]) then
      var h := DigitsValue(s[..2]);
      var m := DigitsValue(s[3..]);
      if h < 24 && m < 60 then Some(Clock(h, m)) else None
    else None
  }

  /** The saved "hora" reads back as the time that was saved. */
  lemma ClockRoundTrip(c: Clock)
    requires ValidClock(c)
    ensures ParseClock(FormatClock(c)) == Some(c)
  {
    var s := FormatClock(c);
    assert s[..2] == TwoDigits(c.hour);
    assert s[3..] == TwoDigits(c.minute);
  }

  /** What the robot form holds when it is submitted. */
  datatype Form = Form(
    plataforma: string,
    tono: string,
    collectionId: string,
    timezone: string,
    cantidad: int,
    hora: Clock)

  /** The configuration a save writes: every key present, the time as "HH:MM". */
  function NewConfig(f: Form): (c: Config)
    requires ValidClock(f.hora)
    ensures c.plataforma == Some(f.plataforma) && c.tono == Some(f.tono)
    ensures c.collectionId == Some(f.collectionId) && c.timezone == Some(f.timezone)
    ensures c.cantidad == Some(f.cantidad)
    ensures c.hora.Some? && ParseClock(c.hora.value) == Some(f.hora)
  {
    ClockRoundTrip(f.hora);
    Config(Some(f.plataforma), Some(f.tono), Some(f.collectionId), Some(f.cantidad),
           Some(f.timezone), Some(FormatClock(f.hora)))
  }

  /** A daily cron job running the robot with a configuration. */
  datatype Job = Job(hour: nat, minute: nat, timezone: string, config: Config)

  /** The state the status readouts show. */
  datatype Status = Active | Stopped

  /** The background scheduler as the session keeps it: its registered jobs, in the
      order they were added, and whether it has been started. */
  class Scheduler {
    var jobs: seq<Job>
    var running: bool

    constructor ()
      ensures jobs == [] && !running
    {
      jobs, running := [], false;
    }

    /** Starting a scheduler that is already running is an error. */
    method Start()
      requires !running
      modifies this
      ensures running && jobs == old(jobs)
    {
      running := true;
    }

    method RemoveAllJobs()
      modifies this
      ensures jobs == [] && running == old(running)
    {
      jobs := [];
    }

    method AddJob(job: Job)
      modifies this
      ensures jobs == old(jobs) + [job] && running == old(running)
    {
      jobs := jobs + [job];
    }

    /** The readout of the dashboard and of the status panel. */
    function Status(): (s: Status)
      reads this
      ensures s == Active <==> jobs != []
    {
      if jobs != [] then Active else Stopped
    }
  }

  /** The scheduler of the session: the one already there, or a new one, started. */
  method SessionScheduler(existing: Option<Scheduler>) returns (s: Scheduler)
    ensures existing.Some? ==> s == existing.value
    ensures existing.None? ==> fresh(s) && s.jobs == [] && s.running
  {
    if existing.Some? {
      s := existing.value;
    } else {
      s := new Scheduler();
      s.Start();
    }
  }

  /** The job a save registers. */
  function JobFor(f: Form): Job
    requires ValidClock(f.hora)
  {
    Job(f.hora.hour, f.hora.minute, f.timezone, NewConfig(f))
  }

  /** Saving the robot form: the new configuration is built, every registered job is
      removed and exactly one job, for the new configuration at the chosen time and
      timezone, is added. */
  method SaveRobot(s: Scheduler, f: Form) returns (conf: Config)
    requires ValidClock(f.hora)
    modifies s
    ensures conf == NewConfig(f)
    ensures s.jobs == [JobFor(f)] && s.running == old(s.running)
  {
    conf := NewConfig(f);
    s.RemoveAllJobs();
    s.AddJob(Job(f.hora.hour, f.hora.minute, f.timezone, conf));
  }

  /** However many jobs were registered, two saves in a row leave exactly the job of
      the second one, and the robot reads as active. */
  method SaveTwice(s: Scheduler, first: Form, second: Form)
    requires ValidClock(first.hora) && ValidClock(second.hora)
    modifies s
    ensures s.jobs == [JobFor(second)] && s.Status() == Active
  {
    var _ := SaveRobot(s, first);
    var _ := SaveRobot(s, second);
  }
}
