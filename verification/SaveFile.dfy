/** The file replacement at the end of a save: write a temporary file, move it over the
    target, and if that fails rotate through a backup. Every file operation may fail,
    and the process may stop between any two of them. */
module SaveFile {
  import opened Persistence

  /** The path itself, `.tmp` and `.bak`. */
  datatype Name = Target | Temp | Backup

  /** A file that was written out in full, or one that was cut short. */
  datatype Content = Complete(world: Document) | Torn

  type Disk = map<Name, Content>

  /** Which operations fail, whatever the state they find. */
  datatype Faults = Faults(
    open: bool, write: bool, discard: bool, move: bool,
    dropOld: bool, rotate: bool, promote: bool, restore: bool, dropLast: bool)

  /** `rename` moves an existing file to a name that is free. */
  predicate CanRename(d: Disk, from: Name, to: Name, fails: bool) {
    !fails && from in d && to !in d
  }

  function Renamed(d: Disk, from: Name, to: Name, fails: bool): Disk {
    if CanRename(d, from, to, fails) then (d - {from})[to := d[from]] else d
  }

  function Removed(d: Disk, name: Name, fails: bool): Disk {
    if fails then d else d - {name}
  }

  predicate Holds(d: Disk, name: Name, w: Document) { name in d && d[name] == Complete(w) }

  predicate HoldsSome(d: Disk, name: Name) { name in d && d[name].Complete? }

  /** A complete world is somewhere on the disk. */
  predicate Recoverable(d: Disk) { HoldsSome(d, Target) || HoldsSome(d, Backup) || HoldsSome(d, Temp) }

  /** The path reads as before or as the new world. */
  predicate PathIntact(d: Disk, t: Disk, w: Document) {
    (Target in d ==> Target in t && (t[Target] == d[Target] || t[Target] == Complete(w)))
    && (Target !in d ==> Target !in t || t[Target] == Complete(w))
  }

  /** The one gap: the old file is at `.bak`, the new one complete at `.tmp`, the path free. */
  predicate InRotation(d: Disk, t: Disk, w: Document) {
    Target in d && Target !in t && Backup in t && t[Backup] == d[Target] && Holds(t, Temp, w)
  }

  /** The save failed for good between rotation and promotion. */
  predicate Stranded(d: Disk, f: Faults) {
    !f.open && !f.write && f.move && Rotates(d, f) && f.promote && f.restore
  }

  /** With the path missing, the restore step puts an undeleted older backup in its place. */
  predicate Resurrects(d: Disk, f: Faults) {
    !f.open && !f.write && f.move && Target !in d && Backup in d && f.dropOld && f.promote && !f.restore
  }

  /** The fallback gets the old file out of the way. */
  predicate Rotates(d: Disk, f: Faults) {
    Target in d && !f.rotate && (Backup !in d || !f.dropOld)
  }

  // ----- the states a save goes through

  function Rotated(d: Disk, w: Document, f: Faults): Disk {
    Renamed(Removed(d[Temp := Complete(w)], Backup, f.dropOld), Target, Backup, f.rotate)
  }

  function Moments(d: Disk, w: Document, f: Faults): (r: seq<Disk>)
    ensures |r| > 0
  {
    var written := d[Temp := Complete(w)];
    var rotated := Rotated(d, w, f);
    var promoted := Renamed(rotated, Temp, Target, f.promote);
    if f.open then [d]
    else if f.write then [d, d[Temp := Torn], Removed(d[Temp := Torn], Temp, f.discard)]
    else if !f.move then [d, d[Temp := Torn], written, (d - {Temp})[Target := Complete(w)]]
    else [d, d[Temp := Torn], written, Removed(written, Backup, f.dropOld), rotated] +
         if CanRename(rotated, Temp, Target, f.promote) then [promoted, Removed(promoted, Backup, f.dropLast)]
         else [Renamed(rotated, Backup, Target, f.restore)]
  }

  predicate Succeeds(d: Disk, w: Document, f: Faults) {
    !f.open && !f.write && (f.move ==> CanRename(Rotated(d, w, f), Temp, Target, f.promote))
  }

  function Final(d: Disk, w: Document, f: Faults): Disk {
    Moments(d, w, f)[|Moments(d, w, f)| - 1]
  }

  /** Replaces the world file and lists every state the disk went through. Success leaves the
      new world at the path; a complete world is on the disk throughout if the path or the
      backup held one; and failure loses the path only where both renames after the
      rotation fail. */
  method SaveWorldToFile(disk: Disk, world: Document, f: Faults) returns (ok: bool, trace: seq<Disk>)
    ensures trace == Moments(disk, world, f) && (ok <==> Succeeds(disk, world, f))
    ensures ok ==> Holds(trace[|trace| - 1], Target, world)
    ensures !f.open && !f.write && !f.move ==> ok
    ensures AtRest(disk) ==> forall t :: t in trace ==> Recoverable(t)
    ensures !f.move ==> forall t :: t in trace ==> PathIntact(disk, t, world)
    ensures !ok && Target in disk && Target !in trace[|trace| - 1] ==> Stranded(disk, f)
  {
    ok, trace := RunSteps(disk, world, f);
    hide Moments, Succeeds, Recoverable, PathIntact, AtRest;
    Outcome(disk, world, f);
    SuccessExactly(disk, world, f);
    forall t | t in trace ensures (AtRest(disk) ==> Recoverable(t)) && (!f.move ==> PathIntact(disk, t, world)) {
      if AtRest(disk) { AtRestSafely(disk, world, f, t); }
      if !f.move { PrimaryIntact(disk, world, f, t); }
    }
  }

  method RunSteps(disk: Disk, world: Document, f: Faults) returns (ok: bool, trace: seq<Disk>)
    ensures trace == Moments(disk, world, f) && (ok <==> Succeeds(disk, world, f))
  {
    trace := [disk];
    if f.open {
      return false, trace;
    }
    var d := disk[Temp := Torn];
    trace := trace + [d];
    if f.write {
      d := Removed(d, Temp, f.discard);
      return false, trace + [d];
    }
    d := d[Temp := Complete(world)];
    assert d == disk[Temp := Complete(world)];
    trace := trace + [d];
    if !f.move {
      d := (d - {Temp})[Target := Complete(world)];
      assert d == (disk - {Temp})[Target := Complete(world)];
      return true, trace + [d];
    }
    d := Removed(d, Backup, f.dropOld);
    trace := trace + [d];
    d := Renamed(d, Target, Backup, f.rotate);
    trace := trace + [d];
    if !CanRename(d, Temp, Target, f.promote) {
      d := Renamed(d, Backup, Target, f.restore);
      return false, trace + [d];
    }
    d := Renamed(d, Temp, Target, f.promote);
    trace := trace + [d];
    d := Removed(d, Backup, f.dropLast);
    return true, trace + [d];
  }

  // ----- one save

  /** At every moment the path reads as before or as the new world, or the save is between
      rotation and promotion with both worlds complete; a path that was missing may also
      come back from an older backup. */
  lemma PathAtEveryMoment(d: Disk, w: Document, f: Faults, t: Disk)
    requires t in Moments(d, w, f)
    ensures PathIntact(d, t, w) || InRotation(d, t, w) || (Resurrects(d, f) && Target in t && t[Target] == d[Backup])
  {
    FallbackMoments(d, w, f, t);
  }

  /** The states of the fallback, one by one. */
  lemma FallbackMoments(d: Disk, w: Document, f: Faults, t: Disk)
    requires t in Moments(d, w, f)
    ensures || t - {Temp} == d - {Temp}
            || (!f.move && Holds(t, Target, w))
            || (f.move && !f.open && !f.write && FallbackState(d, w, f, t))
  {}

  predicate FallbackState(d: Disk, w: Document, f: Faults, t: Disk) {
    var dropped := Removed(d[Temp := Complete(w)], Backup, f.dropOld);
    var rotated := Rotated(d, w, f);
    || t == dropped || t == rotated
    || (CanRename(rotated, Temp, Target, f.promote) && Holds(t, Target, w))
    || (!CanRename(rotated, Temp, Target, f.promote) && t == Renamed(rotated, Backup, Target, f.restore))
  }

  /** On the primary branch the path is intact at every moment, and nothing but the
      temporary file changes before it. */
  lemma PrimaryIntact(d: Disk, w: Document, f: Faults, t: Disk)
    requires !f.move && t in Moments(d, w, f)
    ensures PathIntact(d, t, w)
  {
    FallbackMoments(d, w, f, t);
  }

  /** Success means the path holds the new world; failure leaves it as it was unless the
      rotation is stranded, which is exactly when an existing path ends up missing. */
  lemma Outcome(d: Disk, w: Document, f: Faults)
    ensures Succeeds(d, w, f) ==> Holds(Final(d, w, f), Target, w)
    ensures !Succeeds(d, w, f) && !Stranded(d, f) && !Resurrects(d, f) ==>
      (Target in Final(d, w, f) <==> Target in d) && (Target in d ==> Final(d, w, f)[Target] == d[Target])
    ensures Target in d ==> (Target !in Final(d, w, f) <==> Stranded(d, f))
    ensures Stranded(d, f) ==> InRotation(d, Final(d, w, f), w)
  {}

  /** When a save succeeds: the file can be opened and written, and it can be moved over the path,
      or else the path is free or can be rotated away, and the new file put in its place. And what
      a success and a failure leave behind. */
  lemma SuccessExactly(d: Disk, w: Document, f: Faults)
    ensures Succeeds(d, w, f) <==>
      !f.open && !f.write &&
      (!f.move || (!f.promote && (Target !in d || (!f.rotate && (Backup !in d || !f.dropOld)))))
    ensures Succeeds(d, w, f) ==> Holds(Final(d, w, f), Target, w) && Temp !in Final(d, w, f)
    ensures Succeeds(d, w, f) && !f.move ==> Final(d, w, f) - {Target} == d - {Target, Temp}
    ensures Succeeds(d, w, f) && f.move && !f.dropLast ==> Backup !in Final(d, w, f)
    ensures f.open ==> Final(d, w, f) == d
    ensures !f.open && f.write ==> Final(d, w, f) - {Temp} == d - {Temp} && (Temp in Final(d, w, f) <==> f.discard)
  {}

  /** A complete world is on the disk at every moment of a save if and only if the path or
      the backup held one when it began (or the temporary file could not be opened and
      held one itself). */
  lemma RecoverableThroughout(d: Disk, w: Document, f: Faults)
    ensures (forall t :: t in Moments(d, w, f) ==> Recoverable(t)) <==>
      HoldsSome(d, Target) || HoldsSome(d, Backup) || (f.open && HoldsSome(d, Temp))
  {
    if HoldsSome(d, Target) || HoldsSome(d, Backup) {
      forall t | t in Moments(d, w, f) ensures Recoverable(t) {
        FallbackMoments(d, w, f, t);
      }
    } else if f.open {
      assert Moments(d, w, f)[0] in Moments(d, w, f);
    } else {
      assert Moments(d, w, f)[1] in Moments(d, w, f);
    }
  }

  // ----- any number of saves, each stopped at any moment

  predicate AtRest(d: Disk) { HoldsSome(d, Target) || HoldsSome(d, Backup) }

  /** Nothing that survives only at `.bak` gets dropped: the fallback is not reached, or it
      cannot remove the backup, or the path itself holds a complete world. */
  predicate Guarded(d: Disk, f: Faults) {
    f.open || f.write || !f.move || f.dropOld || HoldsSome(d, Target)
  }

  /** At rest means exactly that one more save, of any world and with any faults, keeps a
      complete world on the disk at every moment. */
  lemma AtRestIsSafe(d: Disk, w: Document)
    ensures AtRest(d) <==> forall f, t :: t in Moments(d, w, f) ==> Recoverable(t)
  {
    if AtRest(d) {
      forall f, t | t in Moments(d, w, f) ensures Recoverable(t) {
        RecoverableThroughout(d, w, f);
      }
    } else {
      RecoverableThroughout(d, w, Faults(false, false, false, false, false, false, false, false, false));
    }
  }

  /** Wherever a save from a disk at rest is stopped, the disk is at rest again, if and only
      if the save is guarded. */
  lemma StoppedAtRest(d: Disk, w: Document, f: Faults)
    requires AtRest(d)
    ensures (forall t :: t in Moments(d, w, f) ==> AtRest(t)) <==> Guarded(d, f)
  {
    if Guarded(d, f) {
      forall t | t in Moments(d, w, f) ensures AtRest(t) {
        FallbackMoments(d, w, f, t);
      }
    } else {
      assert Moments(d, w, f)[3] in Moments(d, w, f);
    }
  }

  /** A history of saves: each starts from the state some moment of the last one left. */
  predicate SaveHistory(first: Disk, disks: seq<Disk>, worlds: seq<Document>, faults: seq<Faults>) {
    && |disks| == |worlds| + 1 && |faults| == |worlds| && disks[0] == first
    && forall i {:trigger faults[i]} :: 0 <= i < |faults| ==> disks[i + 1] in Moments(disks[i], worlds[i], faults[i])
  }

  ghost predicate AllGuarded(disks: seq<Disk>, faults: seq<Faults>, n: nat)
    requires n <= |faults| < |disks|
  {
    forall i {:trigger faults[i]} :: 0 <= i < n ==> Guarded(disks[i], faults[i])
  }

  lemma NextSave(first: Disk, disks: seq<Disk>, worlds: seq<Document>, faults: seq<Faults>, i: nat)
    requires SaveHistory(first, disks, worlds, faults) && i < |worlds|
    ensures disks[i + 1] in Moments(disks[i], worlds[i], faults[i])
  {
    var f := faults[i];
  }

  lemma {:induction false} GuardedAtRest(first: Disk, disks: seq<Disk>, worlds: seq<Document>, faults: seq<Faults>, i: nat)
    requires SaveHistory(first, disks, worlds, faults) && i <= |worlds| && AtRest(first)
    requires AllGuarded(disks, faults, i)
    ensures AtRest(disks[i])
  {
    if i > 0 {
      GuardedAtRest(first, disks, worlds, faults, i - 1);
      NextSave(first, disks, worlds, faults, i - 1);
      StoppedAtRest(disks[i - 1], worlds[i - 1], faults[i - 1]);
    }
  }

  /** The same saves, stopped at another moment of save `i` and then before each later one. */
  function Diverted(disks: seq<Disk>, i: nat, t: Disk): seq<Disk>
    requires i < |disks|
  {
    seq(|disks|, k requires 0 <= k < |disks| => if k <= i then disks[k] else t)
  }

  lemma FirstMoment(d: Disk, w: Document, f: Faults)
    ensures d in Moments(d, w, f)
  {
    assert Moments(d, w, f)[0] == d;
  }

  lemma DivertedHistory(first: Disk, disks: seq<Disk>, worlds: seq<Document>, faults: seq<Faults>, i: nat, t: Disk)
    requires SaveHistory(first, disks, worlds, faults) && i < |worlds| && t in Moments(disks[i], worlds[i], faults[i])
    ensures SaveHistory(first, Diverted(disks, i, t), worlds, faults)
  {
    hide Moments;
    var other := Diverted(disks, i, t);
    forall k {:trigger faults[k]} | 0 <= k < |faults| ensures other[k + 1] in Moments(other[k], worlds[k], faults[k]) {
      if k > i {
        FirstMoment(t, worlds[k], faults[k]);
      } else if k < i {
        NextSave(first, disks, worlds, faults, k);
      }
    }
  }

  ghost predicate NothingLost(first: Disk, worlds: seq<Document>, faults: seq<Faults>) {
    forall disks, i :: SaveHistory(first, disks, worlds, faults) && 0 <= i < |disks| ==> AtRest(disks[i])
  }

  ghost predicate AlwaysGuarded(first: Disk, worlds: seq<Document>, faults: seq<Faults>)
    requires |faults| == |worlds|
  {
    forall disks :: SaveHistory(first, disks, worlds, faults) ==> AllGuarded(disks, faults, |faults|)
  }

  lemma LostIfUnguarded(first: Disk, disks: seq<Disk>, worlds: seq<Document>, faults: seq<Faults>, i: nat)
    requires SaveHistory(first, disks, worlds, faults) && i < |faults| && NothingLost(first, worlds, faults)
    ensures Guarded(disks[i], faults[i])
  {
    hide Moments, Guarded;
    StoppedAtRest(disks[i], worlds[i], faults[i]);
    forall t | t in Moments(disks[i], worlds[i], faults[i]) ensures AtRest(t) {
      DivertedHistory(first, disks, worlds, faults, i, t);
      assert Diverted(disks, i, t)[i + 1] == t;
    }
  }

  /** Any number of saves that complete, fail or are cut off anywhere: from a disk at rest,
      every one of them leaves it at rest wherever they stop, and so keeps a complete world
      on it through any further save, if and only if no save reached that way is unguarded. */
  lemma NeverLost(first: Disk, worlds: seq<Document>, faults: seq<Faults>)
    requires AtRest(first) && |faults| == |worlds|
    ensures NothingLost(first, worlds, faults) <==> AlwaysGuarded(first, worlds, faults)
  {
    hide Moments, Guarded, AtRest;
    if NothingLost(first, worlds, faults) {
      forall disks | SaveHistory(first, disks, worlds, faults) ensures AllGuarded(disks, faults, |faults|) {
        forall i {:trigger faults[i]} | 0 <= i < |faults| ensures Guarded(disks[i], faults[i]) {
          LostIfUnguarded(first, disks, worlds, faults, i);
        }
      }
    }
    if AlwaysGuarded(first, worlds, faults) {
      forall disks, i | SaveHistory(first, disks, worlds, faults) && 0 <= i < |disks| ensures AtRest(disks[i]) {
        GuardedAtRest(first, disks, worlds, faults, i);
      }
    }
  }

  /** Every moment of every save of a history. */
  ghost predicate AllRecoverable(first: Disk, worlds: seq<Document>, faults: seq<Faults>) {
    forall disks, i, t ::
      (SaveHistory(first, disks, worlds, faults) && 0 <= i < |worlds| && t in Moments(disks[i], worlds[i], faults[i]))
      ==> Recoverable(t)
  }

  lemma GuardedRecoverable(first: Disk, worlds: seq<Document>, faults: seq<Faults>)
    requires AtRest(first) && |faults| == |worlds| && AlwaysGuarded(first, worlds, faults)
    ensures AllRecoverable(first, worlds, faults)
  {
    NeverLost(first, worlds, faults);
    hide Moments, Guarded, AtRest, Recoverable;
    forall disks, i, t | SaveHistory(first, disks, worlds, faults) && 0 <= i < |worlds|
                         && t in Moments(disks[i], worlds[i], faults[i])
      ensures Recoverable(t)
    {
      AtRestSafely(disks[i], worlds[i], faults[i], t);
    }
  }

  lemma AtRestSafely(d: Disk, w: Document, f: Faults, t: Disk)
    requires AtRest(d) && t in Moments(d, w, f)
    ensures Recoverable(t)
  {
    hide Moments;
    RecoverableThroughout(d, w, f);
  }

  /** An unguarded save of one world, whatever the disk at rest it starts from, can be
      stopped so that the next save empties the disk of complete worlds. */
  lemma UnguardedLosesAll(d: Disk, w: Document, f: Faults)
    requires AtRest(d) && !Guarded(d, f)
    ensures exists t, t' :: t in Moments(d, w, f) && t' in Moments(t, w, f) && !Recoverable(t')
  {
    StoppedAtRest(d, w, f);
    var t :| t in Moments(d, w, f) && !AtRest(t);
    RecoverableThroughout(t, w, f);
  }

  lemma RotationStop(w0: Document, w: Document, f: Faults) returns (d: Disk)
    requires !f.open && !f.write && f.move && !f.dropOld && !f.rotate
    ensures d in Moments(map[Target := Complete(w0)], w, f) && AtRest(d) && !Guarded(d, f)
  {
    var d0: Disk := map[Target := Complete(w0)];
    d := Rotated(d0, w, f);
    assert Moments(d0, w, f)[4] == d;
  }

  /** Such a save is reached from an ordinary disk: a stop in mid-rotation leaves the old
      world at `.bak` only, so three saves can lose everything. */
  lemma ThreeSavesLoseAll(w0: Document, w: Document, f: Faults)
    requires !f.open && !f.write && f.move && !f.dropOld && !f.rotate
    ensures exists disks :: SaveHistory(map[Target := Complete(w0)], disks, [w, w, w], [f, f, f]) && !Recoverable(disks[3])
  {
    hide Moments, Recoverable, Guarded, AtRest;
    var d0: Disk := map[Target := Complete(w0)];
    var d1 := RotationStop(w0, w, f);
    UnguardedLosesAll(d1, w, f);
    var t, t' :| t in Moments(d1, w, f) && t' in Moments(t, w, f) && !Recoverable(t');
    var disks, worlds, faults := [d0, d1, t, t'], [w, w, w], [f, f, f];
    assert SaveHistory(d0, disks, worlds, faults);
  }
}
