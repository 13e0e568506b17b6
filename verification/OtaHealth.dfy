/** An update, its verdict and its confirm, across reboots (device/moy_ota_health.py:94-204,
    device/moy_ota.py:291-322, 400-408), over a bootloader that gives a new image one boot to
    confirm itself in. */
module OtaHealth {
  import opened Options

  const HEALTHY_SERVES: nat := 300

  datatype Slot = SlotA | SlotB

  function Other(s: Slot): Slot { if s == SlotA then SlotB else SlotA }

  /** What the bootloader knows of a slot's image: never run, on its one trial boot,
      confirmed, or given up on. */
  datatype Trust = Fresh | Trial | Good | Dropped

  /** A slot's image, by the install that wrote it. */
  datatype Image = Image(install: nat, trust: Trust)

  /** The pending marker: the slot it names, and which install wrote it. */
  datatype Marker = Marker(slot: Slot, install: nat)

  /** What outlives a reboot, and which slot is running. */
  datatype Board = Board(a: Image, b: Image, boot: Slot, running: Slot, marker: Option<Marker>, installs: nat)

  datatype Verdict = Took | RolledBack

  /** `SlotHealth`'s fields: one boot's. */
  datatype Health = Health(confirmed: bool, seen: bool, loops: nat, verdict: Option<Verdict>)

  function At(b: Board, s: Slot): Image { if s == SlotA then b.a else b.b }

  function With(b: Board, s: Slot, i: Image): Board { if s == SlotA then b.(a := i) else b.(b := i) }

  function Running(b: Board): Image { At(b, b.running) }

  // ---- the bootloader ----

  /** A reset: a fresh image begins its trial, one whose trial went unconfirmed is dropped for
      the other. */
  function Rebooted(b: Board): Board {
    var i := At(b, b.boot);
    match i.trust
    case Fresh => With(b, b.boot, i.(trust := Trial)).(running := b.boot)
    case Good => b.(running := b.boot)
    case Trial => With(b, b.boot, i.(trust := Dropped)).(boot := Other(b.boot), running := Other(b.boot))
    case Dropped => b.(boot := Other(b.boot), running := Other(b.boot))
  }

  /** `mark_app_valid_cancel_rollback`. */
  function Marked(b: Board): Board { With(b, b.running, Running(b).(trust := Good)) }

  /** `ota_activate`: the image written to the other slot is the next boot's. The bootloader
      takes it only from a running image that is itself confirmed. */
  function Activated(b: Board): Board
  {
    With(b, Other(b.running), Image(b.installs, Fresh)).(boot := Other(b.running), installs := b.installs + 1)
  }

  // ---- one boot ----

  function NewBoot(): Health { Health(false, false, 0, None) }

  /** `boot_check`: with the store readable, what became of the install the marker records. */
  function Checked(b: Board, h: Health, readable: bool): Health {
    if !readable || b.marker.None? then h
    else h.(seen := true, verdict := Some(if b.marker.value.slot == b.running then Took else RolledBack))
  }

  /** The end of every confirm: the marker, if this boot saw one, retired. */
  function Retired(b: Board, h: Health, stores: bool): (Board, Health) {
    (if h.seen && stores then b.(marker := None) else b, h.(confirmed := true, seen := false))
  }

  /** The kernel's confirm: it marks the image, then says so. */
  function Painted(b: Board, h: Health, stores: bool): (Board, Health) {
    if h.confirmed then (Marked(b), h) else Retired(Marked(b), h, stores)
  }

  predicate Fires(h: Health, serving: bool) {
    !h.confirmed && serving && h.loops + 1 >= HEALTHY_SERVES
  }

  /** `confirm_when_serving`, one poll. */
  function Polled(b: Board, h: Health, serving: bool, marks: bool, stores: bool): (Board, Health) {
    if h.confirmed then (b, h)
    else if !serving then (b, h.(loops := 0))
    else if h.loops + 1 < HEALTHY_SERVES then (b, h.(loops := h.loops + 1))
    else Retired(if marks then Marked(b) else b, h.(loops := h.loops + 1), stores)
  }

  // ---- whole runs ----

  /** How writing the marker goes: whole; its file not opened, so that an older one stands; or
      cut short once opened, which leaves a file that does not read. */
  datatype Arming = Written | Unopened | Torn

  /** The marker as it reads afterwards. */
  function Armed(b: Board, install: nat, arming: Arming): Board {
    match arming
    case Written => b.(marker := Some(Marker(b.boot, install)))
    case Unopened => b
    case Torn => b.(marker := None)
  }

  datatype Event =
    | Reboot
    | Check(readable: bool)
    | Poll(serving: bool, marks: bool, stores: bool)
    | Paint(stores: bool)
    | Install(accepted: bool, arming: Arming)

  datatype World = World(b: Board, h: Health)

  function Step(w: World, e: Event): World {
    match e
    case Reboot => World(Rebooted(w.b), NewBoot())
    case Check(readable) => w.(h := Checked(w.b, w.h, readable))
    case Poll(serving, marks, stores) =>
      var (b, h) := Polled(w.b, w.h, serving, marks, stores);
      World(b, h)
    case Paint(stores) =>
      var (b, h) := Painted(w.b, w.h, stores);
      World(b, h)
    case Install(accepted, arming) =>
      if !accepted || Running(w.b).trust != Good then w
      else w.(b := Armed(Activated(w.b), w.b.installs, arming))
  }

  function Run(w: World, es: seq<Event>): World {
    if es == [] then w else Step(Run(w, es[..|es| - 1]), es[|es| - 1])
  }

  /** A board as it leaves the factory: a confirmed image running, nothing pending. */
  function Factory(): World {
    World(Board(Image(0, Good), Image(1, Dropped), SlotA, SlotA, None, 2), NewBoot())
  }

  // ---- what every step keeps ----

  /** What runs is confirmed or on trial, and on trial only with a confirmed image to go back
      to; what boots next is what runs, or a fresh image beside a confirmed one. */
  ghost predicate Bootable(b: Board) {
    && (Running(b).trust == Good || Running(b).trust == Trial)
    && (Running(b).trust == Trial ==> At(b, Other(b.running)).trust == Good && b.boot == b.running)
    && (b.boot != b.running ==> Running(b).trust == Good && At(b, b.boot).trust == Fresh)
    && b.a.install < b.installs && b.b.install < b.installs && b.a.install != b.b.install
  }

  /** The marker names the slot its own install is in, which boots next if anything new does;
      off that slot, the image there has been dropped or has yet to boot. */
  ghost predicate Told(b: Board) {
    b.marker.Some? ==>
      var m := b.marker.value;
      && At(b, m.slot).install == m.install
      && (b.boot != b.running ==> m.slot == b.boot)
      && (b.running != m.slot ==> At(b, m.slot).trust == Dropped || (At(b, m.slot).trust == Fresh && b.boot == m.slot))
  }

  lemma StepKeeps(w: World, e: Event)
    requires Bootable(w.b)
    ensures Bootable(Step(w, e).b)
  {
  }

  /** An install that goes ahead and cannot open its marker, an older one standing. */
  predicate Misarms(w: World, e: Event) {
    e.Install? && e.accepted && Running(w.b).trust == Good && e.arming.Unopened? && w.b.marker.Some?
  }

  lemma StepTells(w: World, e: Event)
    requires Bootable(w.b) && Told(w.b) && !Misarms(w, e)
    ensures Told(Step(w, e).b)
  {
  }

  /** No install of the run leaves an older marker to speak for it. */
  ghost predicate Speaks(es: seq<Event>) {
    forall k :: 0 <= k < |es| ==> !Misarms(Run(Factory(), es[..k]), es[k])
  }

  lemma {:induction false} RunTells(es: seq<Event>)
    requires Speaks(es)
    ensures Bootable(Run(Factory(), es).b) && Told(Run(Factory(), es).b)
  {
    if es != [] {
      var head := es[..|es| - 1];
      hide Run, Misarms;
      forall k | 0 <= k < |head| ensures !Misarms(Run(Factory(), head[..k]), head[k]) {
        assert head[..k] == es[..k];
      }
      RunTells(head);
      StepKeeps(Run(Factory(), head), es[|es| - 1]);
      StepTells(Run(Factory(), head), es[|es| - 1]);
      RunLast(Factory(), es);
    } else {
      RunNone(Factory());
    }
  }

  lemma RunLast(w: World, es: seq<Event>)
    requires es != []
    ensures Run(w, es) == Step(Run(w, es[..|es| - 1]), es[|es| - 1])
  {
  }

  lemma RunNone(w: World)
    ensures Run(w, []) == w
  {
  }

  /** A boot from here that reads the marker, before anything else is installed, says the update
      took exactly when the image running is the one that install wrote, that it was rolled back
      exactly when the bootloader has given that image up for a confirmed one, and nothing where
      there is no marker. */
  ghost predicate Truthful(b: Board) {
    var w := Step(World(Rebooted(b), NewBoot()), Check(true));
    if b.marker.None? then w.h.verdict == None
    else
      var m := b.marker.value;
      && w.h.verdict.Some?
      && (w.h.verdict.value == Took <==> Running(w.b).install == m.install)
      && (w.h.verdict.value == RolledBack <==> At(w.b, m.slot) == Image(m.install, Dropped) && Running(w.b).trust == Good)
  }

  lemma ToldIsTruthful(b: Board)
    requires Bootable(b) && Told(b)
    ensures Truthful(b)
  {
    StepKeeps(World(b, NewBoot()), Reboot);
    StepTells(World(b, NewBoot()), Reboot);
  }

  /** From a board whose marker speaks for its own install, an install that goes ahead without
      recording itself leaves the next boot truthful exactly when no marker stands. */
  lemma UnopenedExactly(w: World)
    requires Bootable(w.b) && Told(w.b) && Running(w.b).trust == Good
    ensures Truthful(Step(w, Install(true, Unopened)).b) <==> w.b.marker.None?
  {
  }

  /** The verdict tells the truth: after any run in which no install left an older marker to
      speak for it. */
  lemma VerdictIsTrue(es: seq<Event>)
    requires Speaks(es)
    ensures Truthful(Run(Factory(), es).b)
  {
    RunTells(es);
    ToldIsTruthful(Run(Factory(), es).b);
    hide *;
  }

  /** And exactly then: whenever in the run the board is next reset, the boot tells the truth,
      if and only if no install of the run went ahead with its marker not opened and an older
      one standing. */
  lemma VerdictsTrueExactly(es: seq<Event>)
    ensures (forall k :: 0 <= k <= |es| ==> Truthful(Run(Factory(), es[..k]).b)) <==> Speaks(es)
  {
    hide Run, Truthful, Misarms;
    if Speaks(es) {
      forall k | 0 <= k <= |es| ensures Truthful(Run(Factory(), es[..k]).b) {
        SpeaksBefore(es, k);
        VerdictIsTrue(es[..k]);
      }
    } else {
      var k :| 0 <= k < |es| && Misarms(Run(Factory(), es[..k]), es[k]);
      FirstMisarm(es, k);
    }
  }

  lemma SpeaksBefore(es: seq<Event>, k: nat)
    requires Speaks(es) && k <= |es|
    ensures Speaks(es[..k])
  {
    hide Run, Misarms;
    forall j | 0 <= j < k ensures !Misarms(Run(Factory(), es[..k][..j]), es[..k][j]) {
      assert es[..k][..j] == es[..j];
    }
  }

  /** The first install to leave an older marker standing is followed by a boot that lies. */
  lemma {:induction false} FirstMisarm(es: seq<Event>, k: nat)
    requires k < |es| && Misarms(Run(Factory(), es[..k]), es[k])
    ensures exists j :: 0 <= j <= |es| && !Truthful(Run(Factory(), es[..j]).b)
    decreases k
  {
    hide Run, Truthful;
    if Speaks(es[..k]) {
      RunTells(es[..k]);
      UnopenedExactly(Run(Factory(), es[..k]));
      assert es[..k + 1][..k] == es[..k];
      RunLast(Factory(), es[..k + 1]);
      MisarmIs(Run(Factory(), es[..k]), es[k]);
      assert !Truthful(Run(Factory(), es[..k + 1]).b);
    } else {
      var j :| 0 <= j < |es[..k]| && Misarms(Run(Factory(), es[..k][..j]), es[..k][j]);
      assert es[..k][..j] == es[..j];
      FirstMisarm(es, j);
    }
  }

  lemma MisarmIs(w: World, e: Event)
    requires Misarms(w, e)
    ensures e == Install(true, Unopened) && w.b.marker.Some? && Running(w.b).trust == Good
  {
  }

  /** No image runs two boots in a row unconfirmed. */
  lemma NoSecondTrial(w: World)
    requires Bootable(w.b)
    ensures var r := Step(w, Reboot);
            Running(r.b).install == Running(w.b).install ==> Running(w.b).trust == Good
    ensures Running(w.b).trust != Good ==> Running(Step(w, Reboot).b).trust == Good
  {
  }

  lemma {:induction false} RunBootable(es: seq<Event>)
    ensures Bootable(Run(Factory(), es).b)
  {
    if es != [] {
      RunBootable(es[..|es| - 1]);
      StepKeeps(Run(Factory(), es[..|es| - 1]), es[|es| - 1]);
    }
  }

  /** In any run, an image that is running after a reboot as it was before it was confirmed
      before it. */
  lemma NoUnconfirmedTwice(es: seq<Event>)
    ensures var w := Run(Factory(), es);
            Running(Step(w, Reboot).b).install == Running(w.b).install ==> Running(w.b).trust == Good
  {
    RunBootable(es);
    NoSecondTrial(Run(Factory(), es));
  }

  /** Only a confirm retires the marker: one that this boot's check saw, and that goes through
      to the store. An install may replace it, or leave one that does not read. */
  lemma OnlyAConfirmRetires(w: World, e: Event)
    requires w.b.marker.Some? && Step(w, e).b.marker != w.b.marker
    ensures || (e.Install? && e.accepted && !e.arming.Unopened? && (Step(w, e).b.marker.Some? <==> e.arming.Written?))
            || (Step(w, e).b.marker == None && w.h.seen && Step(w, e).h.confirmed && !w.h.confirmed
                && (e.Paint? || (e.Poll? && Fires(w.h, e.serving))))
  {
  }

  // ---- the serving confirm ----

  /** How many of the last polls served without a break. */
  function Streak(polls: seq<bool>): (n: nat)
    ensures n <= |polls| && forall k :: |polls| - n <= k < |polls| ==> polls[k]
    ensures n < |polls| ==> !polls[|polls| - 1 - n]
  {
    if polls == [] || !polls[|polls| - 1] then 0 else 1 + Streak(polls[..|polls| - 1])
  }

  /** A poll, and how the mark and the store would answer it. */
  datatype Sample = Sample(serving: bool, marks: bool, stores: bool)

  function Serving(polls: seq<Sample>): (s: seq<bool>)
    ensures |s| == |polls| && forall k :: 0 <= k < |polls| ==> s[k] == polls[k].serving
  {
    seq(|polls|, k requires 0 <= k < |polls| => polls[k].serving)
  }

  /** One boot of polls and nothing else. */
  function PollAll(w: World, polls: seq<Sample>): World {
    if polls == [] then w
    else
      var p := polls[|polls| - 1];
      Step(PollAll(w, polls[..|polls| - 1]), Poll(p.serving, p.marks, p.stores))
  }

  /** Whether some 300 polls in a row had all served by the end of the trace. */
  predicate Served(polls: seq<bool>) {
    polls != [] && (Served(polls[..|polls| - 1]) || Streak(polls) >= HEALTHY_SERVES)
  }

  /** The 300 polls from `i` all served. */
  predicate AllServe(polls: seq<bool>, i: nat) {
    i + HEALTHY_SERVES <= |polls| && forall k :: i <= k < i + HEALTHY_SERVES ==> polls[k]
  }

  lemma {:induction false} StreakCounts(polls: seq<bool>, i: nat)
    requires i <= |polls| && forall k :: i <= k < |polls| ==> polls[k]
    ensures Streak(polls) >= |polls| - i
    decreases |polls|
  {
    if i < |polls| {
      StreakCounts(polls[..|polls| - 1], i);
    }
  }

  lemma StreakServes(polls: seq<bool>)
    requires Streak(polls) >= HEALTHY_SERVES
    ensures |polls| >= HEALTHY_SERVES && AllServe(polls, |polls| - HEALTHY_SERVES)
  {
  }

  lemma {:induction false} ServedMeans(polls: seq<bool>)
    ensures Served(polls) <==> exists i: nat :: AllServe(polls, i)
  {
    hide Streak;
    if polls != [] {
      var head := polls[..|polls| - 1];
      ServedMeans(head);
      if Served(head) {
        var i: nat :| AllServe(head, i);
        assert AllServe(polls, i);
      } else if Streak(polls) >= HEALTHY_SERVES {
        StreakServes(polls);
      }
      forall i: nat | AllServe(polls, i) ensures Served(polls) {
        if i + HEALTHY_SERVES < |polls| {
          assert AllServe(head, i);
        } else {
          StreakCounts(polls, i);
        }
      }
    }
  }

  /** Sound and live: over any trace of polls in a boot nothing else confirms, however the mark
      and the store answer, the boot is confirmed by the end exactly when some 300 polls in a
      row served; until then nothing changes but the count. */
  lemma {:induction false} ConfirmedExactlyWhenServed(w: World, polls: seq<Sample>)
    requires !w.h.confirmed && w.h.loops == 0
    ensures var r := PollAll(w, polls);
            && (r.h.confirmed <==> Served(Serving(polls)))
            && (!r.h.confirmed ==> r.b == w.b && r.h == w.h.(loops := Streak(Serving(polls))))
  {
    if polls != [] {
      var head, s := polls[..|polls| - 1], Serving(polls);
      ConfirmedExactlyWhenServed(w, head);
      assert s[..|s| - 1] == Serving(head) && s[|s| - 1] == polls[|polls| - 1].serving;
      StreakStep(s);
      PollStep(w, polls);
      hide Streak, Served, PollAll, Serving, Step;
    }
  }

  lemma StreakStep(s: seq<bool>)
    requires s != []
    ensures Streak(s) == if s[|s| - 1] then 1 + Streak(s[..|s| - 1]) else 0
    ensures Served(s) <==> Served(s[..|s| - 1]) || Streak(s) >= HEALTHY_SERVES
  {
  }

  lemma PollStep(w: World, polls: seq<Sample>)
    requires polls != []
    ensures var p, was := polls[|polls| - 1], PollAll(w, polls[..|polls| - 1]);
            var (b, h) := Polled(was.b, was.h, p.serving, p.marks, p.stores);
            PollAll(w, polls) == World(b, h)
  {
  }

  /** It fires once, on the poll that makes the streak 300: when it does, nothing had fired
      before, and every one of the last 300 served. */
  lemma FiresAtTheFirst(w: World, polls: seq<Sample>, last: bool)
    requires !w.h.confirmed && w.h.loops == 0
    ensures Fires(PollAll(w, polls).h, last)
            <==> !Served(Serving(polls)) && Streak(Serving(polls) + [last]) == HEALTHY_SERVES
  {
    ConfirmedExactlyWhenServed(w, polls);
    assert (Serving(polls) + [last])[..|polls|] == Serving(polls);
  }

  /** And once fired, what that one poll marked and stored is what stands, whatever is polled
      after. */
  lemma {:induction false} FiredStands(w: World, polls: seq<Sample>, p: Sample, more: seq<Sample>)
    requires !w.h.confirmed && w.h.loops == 0 && Fires(PollAll(w, polls).h, p.serving)
    ensures var r := PollAll(w, polls + [p] + more);
            && r.h.confirmed && !r.h.seen
            && r.b == Retired(if p.marks then Marked(w.b) else w.b, w.h, p.stores).0
  {
    hide PollAll, Served, Serving, Streak;
    ConfirmedExactlyWhenServed(w, polls);
    var all := polls + [p] + more;
    PollStep(w, all);
    if more == [] {
      assert all == polls + [p] && all[..|polls|] == polls;
    } else {
      assert all[..|all| - 1] == polls + [p] + more[..|more| - 1];
      FiredStands(w, polls, p, more[..|more| - 1]);
    }
  }

  /** Three hundred, and no fewer. */
  lemma ThreeHundredServe(w: World, polls: seq<Sample>)
    requires !w.h.confirmed && w.h.loops == 0 && forall k :: 0 <= k < |polls| ==> polls[k].serving
    ensures PollAll(w, polls).h.confirmed <==> |polls| >= 300
  {
    ConfirmedExactlyWhenServed(w, polls);
    var s := Serving(polls);
    ServedMeans(s);
    if |polls| >= 300 {
      assert AllServe(s, 0);
    }
    hide PollAll, Served;
  }

  // ---- what a confirm does ----

  /** The kernel's confirm, the first of its boot: the image will be booted again, and the marker
      this boot saw is gone, or stands where the store refuses. */
  lemma KernelConfirmRetires(w: World, stores: bool)
    requires Bootable(w.b) && !w.h.confirmed && w.h.seen && w.b.boot == w.b.running
    ensures var r := Step(w, Paint(stores));
            && r.b.marker == (if stores then None else w.b.marker)
            && r.h.confirmed && r.b.running == w.b.running
            && Step(r, Reboot).b.running == w.b.running
            && Running(Step(r, Reboot).b) == Image(Running(w.b).install, Good)
  {
  }

  /** After it, no boot says anything until there is another install. */
  lemma KernelConfirmEndsIt(w: World, es: seq<Event>)
    requires Bootable(w.b) && !w.h.confirmed && w.h.seen && w.b.boot == w.b.running
    requires forall k :: 0 <= k < |es| ==> !(es[k].Install? && es[k].accepted)
    ensures Run(Step(Step(w, Paint(true)), Reboot), es).h.verdict == None
  {
    KernelConfirmRetires(w, true);
    hide Run;
    SaysNothing(Step(Step(w, Paint(true)), Reboot), es);
  }

  /** Where the store refuses, it is said again: by any boot that reads the marker, whatever was
      polled, painted, checked and rebooted on a confirmed image before it. */
  lemma {:induction false} UnstoredConfirmRepeats(w: World, boots: nat)
    requires Bootable(w.b) && Told(w.b) && !w.h.confirmed && w.h.seen && w.b.boot == w.b.running
    requires w.b.marker.Some? && w.b.marker.value.slot == w.b.running
    ensures Step(Booted(Step(w, Paint(false)), boots + 1), Check(true)).h.verdict == Some(Took)
  {
    KernelConfirmRetires(w, false);
    StaysBooted(Step(w, Paint(false)), boots + 1);
    hide Booted;
  }

  /** So many resets, one after another. */
  function Booted(w: World, boots: nat): World {
    if boots == 0 then w else Step(Booted(w, boots - 1), Reboot)
  }

  lemma {:induction false} StaysBooted(w: World, boots: nat)
    requires Running(w.b).trust == Good && w.b.boot == w.b.running
    ensures Booted(w, boots).b == w.b
  {
    if boots > 0 {
      StaysBooted(w, boots - 1);
    }
  }

  /** The serving confirm does the same, on the poll that fires and marks. */
  lemma ServingConfirmRetires(w: World, stores: bool)
    requires Bootable(w.b) && !w.h.confirmed && w.h.seen && w.b.boot == w.b.running && w.h.loops >= 299
    ensures var r := Step(w, Poll(true, true, stores));
            && r.b.marker == (if stores then None else w.b.marker)
            && r.h.confirmed && Running(Step(r, Reboot).b) == Image(Running(w.b).install, Good)
  {
  }

  /** An accepted install from a confirmed image is what the next boot runs, on trial; and the
      boot after that one is back on the confirmed image, unless a confirm came between. */
  lemma InstallIsTried(w: World, arming: Arming)
    requires Bootable(w.b) && Running(w.b).trust == Good
    ensures var r := Step(Step(w, Install(true, arming)), Reboot);
            && Running(r.b) == Image(w.b.installs, Trial) && r.b.running != w.b.running
            && Step(r, Reboot).b.running == w.b.running && Running(Step(r, Reboot).b) == Running(w.b)
    ensures Step(w, Install(true, arming)).b.marker ==
            if arming.Written? then Some(Marker(Other(w.b.running), w.b.installs))
            else if arming.Unopened? then w.b.marker else None
  {
  }

  /** A marker that no boot has read is retired by none, however they confirm. */
  lemma {:induction false} UnreadMarkerStands(w: World, es: seq<Event>)
    requires forall k :: 0 <= k < |es| ==> !es[k].Install? && !(es[k].Check? && es[k].readable)
    ensures var r := Run(Step(w, Reboot), es); r.b.marker == w.b.marker && !r.h.seen
  {
    if es != [] {
      UnreadMarkerStands(w, es[..|es| - 1]);
    }
  }

  /** The ordinary update, painted once: announced by the boot that paints, and by none after. */
  lemma UpdateIsAnnouncedOnce()
    ensures var w := Run(Factory(), [Install(true, Written), Reboot, Check(true)]);
            w.h.verdict == Some(Took)
    ensures Run(Factory(), [Install(true, Written), Reboot, Check(true), Paint(true), Reboot, Check(true)]).h.verdict == None
  {
    var w := Step(Step(Step(Factory(), Install(true, Written)), Reboot), Check(true));
    RunSix(Factory(), Install(true, Written), Reboot, Check(true), Paint(true), Reboot, Check(true));
    RunThree(Factory(), Install(true, Written), Reboot, Check(true));
  }

  lemma RunThree(w: World, a: Event, b: Event, c: Event)
    ensures Run(w, [a, b, c]) == Step(Step(Step(w, a), b), c)
  {
    hide Step;
    assert [a, b, c][..2] == [a, b] && [a, b][..1] == [a] && [a][..0] == [];
    assert Run(w, [a]) == Step(w, a);
    assert Run(w, [a, b]) == Step(Run(w, [a]), b);
  }

  /** Where the mark itself is refused, the confirm still counts as made and still retires the
      marker, and the next boot is a rollback that neither it nor any boot after it reports,
      until there is another install. */
  lemma RefusedMarkIsSilent(w: World, es: seq<Event>)
    requires Bootable(w.b) && Running(w.b).trust == Trial && w.h.seen && Fires(w.h, true)
    requires forall k :: 0 <= k < |es| ==> !(es[k].Install? && es[k].accepted)
    ensures var r := Step(w, Poll(true, false, true));
            && r.h.confirmed && Step(r, Reboot).b.running != w.b.running
            && Run(Step(r, Reboot), es).h.verdict == None
  {
    hide Run;
    SaysNothing(Step(Step(w, Poll(true, false, true)), Reboot), es);
  }

  lemma {:induction false} SaysNothing(w: World, es: seq<Event>)
    requires w.b.marker == None && w.h.verdict == None
    requires forall k :: 0 <= k < |es| ==> !(es[k].Install? && es[k].accepted)
    ensures Run(w, es).b.marker == None && Run(w, es).h.verdict == None
  {
    if es != [] {
      SaysNothing(w, es[..|es| - 1]);
    }
  }

  /** Exactly: the rollback of a trial boot's image, its marker seen and standing, is reported by
      the next boot if and only if the poll that fired marked the image, or could not retire the
      marker. */
  lemma RefusedMarkExactly(w: World, marks: bool, stores: bool)
    requires Bootable(w.b) && Running(w.b).trust == Trial && Fires(w.h, true)
    requires w.h.seen && w.b.marker.Some? && w.b.marker.value.slot == w.b.running
    ensures var next := Step(Step(Step(w, Poll(true, marks, stores)), Reboot), Check(true));
            (next.b.running != w.b.running ==> next.h.verdict == Some(RolledBack)) <==> marks || !stores
  {
  }

  /** An install that could not record itself leaves an older marker to speak for it: one
      rolled back, then another into the same slot, reads as the first having taken. */
  lemma UnarmedInstallMisreads()
    ensures var es := [Install(true, Written), Reboot, Reboot, Install(true, Unopened), Reboot, Check(true)];
            var w := Run(Factory(), es);
            w.h.verdict == Some(Took) && w.b.marker.Some? && Running(w.b).install != w.b.marker.value.install
  {
    var w0 := Factory();
    var w1 := Step(w0, Install(true, Written));
    var w2 := Step(w1, Reboot);
    var w3 := Step(w2, Reboot);
    var w4 := Step(w3, Install(true, Unopened));
    var w5 := Step(w4, Reboot);
    RunSix(w0, Install(true, Written), Reboot, Reboot, Install(true, Unopened), Reboot, Check(true));
  }

  lemma RunSix(w: World, a: Event, b: Event, c: Event, d: Event, e: Event, f: Event)
    ensures Run(w, [a, b, c, d, e, f]) == Step(Step(Step(Step(Step(Step(w, a), b), c), d), e), f)
  {
    hide Step;
    assert [a, b, c, d, e, f][..5] == [a, b, c, d, e] && [a, b, c, d, e][..4] == [a, b, c, d];
    assert [a, b, c, d][..3] == [a, b, c] && [a, b, c][..2] == [a, b] && [a, b][..1] == [a] && [a][..0] == [];
    assert Run(w, [a]) == Step(w, a);
    assert Run(w, [a, b]) == Step(Run(w, [a]), b);
    assert Run(w, [a, b, c]) == Step(Run(w, [a, b]), c);
    assert Run(w, [a, b, c, d]) == Step(Run(w, [a, b, c]), d);
    assert Run(w, [a, b, c, d, e]) == Step(Run(w, [a, b, c, d]), e);
  }

  /** Once dropped, an install is reported rolled back by every boot that checks, until a
      confirm retires its marker or another install replaces it. */
  lemma {:induction false} RolledBackUntilConfirmed(w: World, es: seq<Event>)
    requires Bootable(w.b) && w.b.marker.Some? && w.b.boot == w.b.running
    requires At(w.b, w.b.marker.value.slot).trust == Dropped && Running(w.b).trust == Good
    requires forall k :: 0 <= k < |es| ==> !(es[k].Install? && es[k].accepted)
    requires Run(w, es).b.marker == w.b.marker
    ensures var r := Step(Step(Run(w, es), Reboot), Check(true)); r.h.verdict == Some(RolledBack)
  {
    StillDropped(w, es);
    hide Run;
  }

  lemma {:induction false} StillDropped(w: World, es: seq<Event>)
    requires Bootable(w.b) && w.b.marker.Some? && w.b.boot == w.b.running
    requires At(w.b, w.b.marker.value.slot).trust == Dropped && Running(w.b).trust == Good
    requires forall k :: 0 <= k < |es| ==> !(es[k].Install? && es[k].accepted)
    ensures var r := Run(w, es);
            && r.b.running == w.b.running && r.b.boot == r.b.running && Running(r.b).trust == Good
            && At(r.b, w.b.marker.value.slot).trust == Dropped
  {
    if es != [] {
      StillDropped(w, es[..|es| - 1]);
    }
  }

  // ---- the classes ----

  /** The flash, the bootloader's record and the store: what a boot finds and leaves. */
  class Device {
    var board: Board

    constructor ()
      ensures board == Factory().b
    {
      board := Factory().b;
    }

    /** `mark_valid`: False where the mark is refused. */
    method MarkValid(marks: bool) returns (ok: bool)
      modifies this
      ensures ok == marks && board == if marks then Marked(old(board)) else old(board)
    {
      if marks {
        board := Marked(board);
      }
      ok := marks;
    }

    /** `_clear_pending`: nothing said where the store refuses. */
    method ClearPending(stores: bool)
      modifies this
      ensures board == if stores then old(board).(marker := None) else old(board)
    {
      if stores {
        board := board.(marker := None);
      }
    }

    method ReadPending(readable: bool) returns (m: Option<Marker>)
      ensures m == if readable then board.marker else None
    {
      m := if readable then board.marker else None;
    }
  }

  class SlotHealth {
    const device: Device
    var confirmed: bool
    var pendingSeen: bool
    var loops: nat
    var bootVerdict: Option<Verdict>

    function Now(): World
      reads this, device
    {
      World(device.board, Health(confirmed, pendingSeen, loops, bootVerdict))
    }

    /** A boot: the bootloader's choice made, nothing yet known. */
    constructor (device: Device)
      modifies device
      ensures this.device == device && Now() == World(Rebooted(old(device.board)), NewBoot())
    {
      this.device := device;
      confirmed, pendingSeen, loops, bootVerdict := false, false, 0, None;
      new;
      device.board := Rebooted(device.board);
    }

    /** `boot_check`. */
    method BootCheck(readable: bool) returns (verdict: Option<Verdict>)
      modifies this
      ensures Now() == Step(old(Now()), Check(readable))
      ensures verdict == if readable && device.board.marker.Some? then bootVerdict else None
    {
      var rec := device.ReadPending(readable);
      if rec.None? {
        return None;
      }
      pendingSeen := true;
      if rec.value.slot == device.board.running {
        bootVerdict := Some(Took);
      } else {
        bootVerdict := Some(RolledBack);
      }
      return bootVerdict;
    }

    /** `confirmed_by_kernel`, the kernel having marked the image. True once a boot. */
    method ConfirmedByKernel(stores: bool) returns (now: bool)
      modifies this, device
      ensures Now() == Step(old(Now()), Paint(stores)) && now == !old(confirmed) && confirmed
      ensures !old(confirmed) ==>
                !pendingSeen && device.board.marker == if old(pendingSeen) && stores then None else old(device.board.marker)
      ensures old(confirmed) ==> device.board.marker == old(device.board.marker)
    {
      var marked := device.MarkValid(true);
      if confirmed {
        return false;
      }
      confirmed := true;
      if pendingSeen {
        pendingSeen := false;
        device.ClearPending(stores);
      }
      return true;
    }

    /** `_confirm`. */
    method Confirm(marks: bool, stores: bool) returns (ok: bool)
      requires !confirmed
      modifies this, device
      ensures ok == marks
      ensures Now() == var (b, h) := Retired(if marks then Marked(old(device.board)) else old(device.board), old(Now().h), stores);
                       World(b, h)
    {
      confirmed := true;
      ok := device.MarkValid(marks);
      if pendingSeen {
        pendingSeen := false;
        device.ClearPending(stores);
      }
    }

    /** `confirm_when_serving`: true on the one poll that confirms. */
    method ConfirmWhenServing(serving: bool, marks: bool, stores: bool) returns (now: bool)
      modifies this, device
      ensures Now() == Step(old(Now()), Poll(serving, marks, stores))
      ensures now == (Fires(old(Now().h), serving) && marks)
      ensures now ==> confirmed && !pendingSeen
                      && device.board.marker == if old(pendingSeen) && stores then None else old(device.board.marker)
    {
      if confirmed {
        return false;
      }
      if !serving {
        loops := 0;
        return false;
      }
      loops := loops + 1;
      if loops < HEALTHY_SERVES {
        return false;
      }
      now := Confirm(marks, stores);
    }

    /** `_arm_pending`. */
    method ArmPending(install: nat, arming: Arming)
      modifies device
      ensures device.board == Armed(old(device.board), install, arming)
    {
      if arming.Unopened? {
        return;
      }
      device.board := device.board.(marker := None);
      if arming.Written? {
        device.board := device.board.(marker := Some(Marker(device.board.boot, install)));
      }
    }

    /** `finish`: False where the slot cannot be made the next boot's; a marker that cannot be
        written does not cost the update. */
    method Finish(accepted: bool, arming: Arming) returns (ok: bool)
      modifies device
      ensures Now() == Step(old(Now()), Install(accepted, arming))
      ensures ok == (accepted && Running(old(device.board)).trust == Good)
    {
      var b := device.board;
      if !accepted || Running(b).trust != Good {
        return false;
      }
      device.board := Activated(b);
      ArmPending(b.installs, arming);
      return true;
    }
  }
}
