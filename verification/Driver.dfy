/** The runtime driver. Every call may fail; `reliable` says that removals never
    do. Creating a volume that already exists succeeds and keeps what is in it. */
module Driver {
  import opened Options
  import opened Names
  import opened Overlay
  import opened Worlds

  /** What was done that neither the tables nor the contents show: the volumes with
      an entrypoint script, and the containers whose data is all on disk. */
  datatype Done = Done(scripted: set<Volume>, flushed: set<Id>)

  class Driver {
    const reliable: bool
    /** Calls other than removals never fail of themselves. */
    const perfect: bool
    /** Which containers get to answer in time. */
    const answers: Id -> bool
    /** What a schema dump prints of a tree, without the noise. */
    const dump: map<Path, string> -> string
    var vols: map<Volume, Disk>
    /** Every container with the volumes it is mounted from, topmost first. */
    var conts: map<Id, seq<Volume>>
    var nextCid: nat
    var done: Done

    /** Every call succeeds and every container comes up. */
    ghost predicate Flawless() {
      perfect && reliable && forall c :: answers(c)
    }

    constructor (reliable: bool, perfect: bool, answers: Id -> bool, dump: map<Path, string> -> string)
      ensures this.reliable == reliable && this.perfect == perfect && this.answers == answers && this.dump == dump
      ensures vols == map[] && conts == map[]
    {
      this.reliable, this.perfect, this.answers, this.dump := reliable, perfect, answers, dump;
      vols, conts, nextCid, done := map[], map[], 0, Done({}, {});
    }

    method CreateVolume(v: Volume) returns (ok: bool)
      modifies this`vols, this`done
      ensures perfect ==> ok
      ensures vols == if ok && v !in old(vols) then old(vols)[v := BLANK] else old(vols)
      ensures done == if ok && v !in old(vols) then old(done).(scripted := old(done).scripted - {v}) else old(done)
    {
      ok := *;
      ok := ok || perfect;
      if ok && v !in vols {
        vols := vols[v := BLANK];
        done := done.(scripted := done.scripted - {v});
      }
    }

    method RemoveVolume(v: Volume) returns (ok: bool)
      modifies this`vols, this`done
      ensures reliable ==> ok
      ensures vols == if ok then old(vols) - {v} else old(vols)
      ensures done == if ok then old(done).(scripted := old(done).scripted - {v}) else old(done)
    {
      ok := *;
      ok := ok || reliable;
      if ok {
        vols := vols - {v};
        done := done.(scripted := done.scripted - {v});
      }
    }

    /** Provisions a copy of a volume, with nothing done in it yet. Copying onto an
        existing volume mixes the two; a copy that fails leaves anything under the
        new name, nothing if removals succeed. No other volume is touched. */
    method CloneVolume(src: Volume, dst: Volume) returns (ok: bool)
      modifies this`vols, this`done
      ensures perfect && src in old(vols) ==> ok
      ensures forall v | v != dst :: v in vols <==> v in old(vols)
      ensures forall v | v != dst && v in vols :: vols[v] == old(vols)[v]
      ensures ok ==> src in old(vols) && dst in vols && (dst !in old(vols) ==> vols[dst] == Disk(old(vols)[src].files, false, false))
      ensures !ok && reliable ==> vols.Keys <= old(vols).Keys
      ensures done == old(done).(scripted := old(done).scripted - {dst})
    {
      ok := *;
      ok := (ok || perfect) && src in vols;
      done := done.(scripted := done.scripted - {dst});
      if ok {
        var disk: Disk := *;
        vols := vols[dst := if dst in vols then disk else Disk(vols[src].files, false, false)];
      } else {
        var half: bool := *;
        var disk: Disk := *;
        if half {
          vols := if reliable then vols - {dst} else vols[dst := disk];
        }
      }
    }

    /** Writes the entrypoint script into a volume. It lands beside the overlay's
        upper directory, so no overlay content changes. */
    method RunHelper(v: Volume) returns (ok: bool)
      modifies this`done
      ensures perfect ==> ok
      ensures done == if ok then old(done).(scripted := old(done).scripted + {v}) else old(done)
    {
      ok := *;
      ok := ok || perfect;
      if ok {
        done := done.(scripted := done.scripted + {v});
      }
    }

    method StartBranch(stack: seq<Volume>) returns (c: Option<Id>)
      modifies this`conts, this`nextCid
      ensures perfect ==> c.Some?
      ensures c.Some? ==> c.value == old(nextCid) && conts == old(conts)[c.value := stack] && nextCid == old(nextCid) + 1
      ensures c.None? ==> conts == old(conts) && nextCid == old(nextCid)
    {
      var ok: bool := *;
      if !(ok || perfect) {
        return None;
      }
      c := Some(nextCid);
      conts := conts[nextCid := stack];
      nextCid := nextCid + 1;
    }

    /** A stop that fails leaves the container's fate open. */
    method StopRemove(c: Id) returns (ok: bool)
      modifies this`conts
      ensures reliable ==> ok
      ensures ok ==> conts == old(conts) - {c}
      ensures conts == old(conts) || conts == old(conts) - {c}
    {
      ok := *;
      ok := ok || reliable;
      var gone: bool := *;
      if ok || gone {
        conts := conts - {c};
      }
    }

    /** A CHECKPOINT inside a container: all its data is on disk. */
    method Checkpoint(c: Id) returns (ok: bool)
      modifies this`done
      ensures ok ==> answers(c)
      ensures perfect && answers(c) ==> ok
      ensures done == if ok then old(done).(flushed := old(done).flushed + {c}) else old(done)
    {
      ok := Probe(c);
      if ok {
        done := done.(flushed := done.flushed + {c});
      }
    }

    /** A probe inside a container (pg_isready, inspect). */
    method Probe(c: Id) returns (ok: bool)
      ensures ok ==> answers(c)
      ensures perfect && answers(c) ==> ok
    {
      ok := *;
      ok := (ok || perfect) && answers(c);
    }

    /** A schema dump of what a container serves. */
    method Dump(c: Id) returns (ok: bool, text: string)
      ensures ok ==> answers(c) && c in conts && text == dump(Merged(Contents(vols, conts[c])))
      ensures perfect && answers(c) && c in conts ==> ok
    {
      ok := Probe(c);
      text := "";
      if c in conts {
        text := dump(Merged(Contents(vols, conts[c])));
      } else {
        ok := false;
      }
    }

    /** SQL run inside a container may write anything into its top volume, also when
        it fails half way. When it completes, that is recorded on the volume. */
    method RunSql(c: Id, masking: bool) returns (ok: bool)
      modifies this`vols, this`done
      ensures perfect ==> ok
      ensures c in conts && conts[c] != [] && conts[c][0] in old(vols) ==>
        && conts[c][0] in vols && vols == old(vols)[conts[c][0] := vols[conts[c][0]]]
        && vols[conts[c][0]].masked == (old(vols)[conts[c][0]].masked || (ok && masking))
        && vols[conts[c][0]].rotated == (old(vols)[conts[c][0]].rotated || (ok && !masking))
      ensures !(c in conts && conts[c] != [] && conts[c][0] in old(vols)) ==> vols == old(vols)
      ensures done == old(done).(flushed := old(done).flushed - {c})
    {
      ok := *;
      ok := ok || perfect;
      done := done.(flushed := done.flushed - {c});
      if c in conts && conts[c] != [] && conts[c][0] in vols {
        var d := vols[conts[c][0]];
        var content: Content := *;
        vols := vols[conts[c][0] := Disk(content, d.masked || (ok && masking), d.rotated || (ok && !masking))];
      }
    }

    /** One guest write or delete through the mount. */
    method GuestWrite(c: Id, p: Path, e: Entry)
      modifies this`vols, this`done
      ensures vols == if c in conts && conts[c] != [] && conts[c][0] in old(vols)
                      then old(vols)[conts[c][0] := Wrote(old(vols)[conts[c][0]], p, e)] else old(vols)
      ensures done == old(done).(flushed := old(done).flushed - {c})
    {
      done := done.(flushed := done.flushed - {c});
      if c in conts && conts[c] != [] && conts[c][0] in vols {
        vols := vols[conts[c][0] := Wrote(vols[conts[c][0]], p, e)];
      }
    }

    /** Seeding fills a volume with a copy of the live database, or fails. */
    method Seed(v: Volume, database: Content) returns (ok: bool)
      modifies this`vols, this`done
      ensures perfect && v in old(vols) ==> ok
      ensures v in old(vols) ==>
        && v in vols && vols == old(vols)[v := vols[v]] && vols[v] == old(vols)[v].(files := vols[v].files)
        && (ok ==> vols[v].files == database)
      ensures v !in old(vols) ==> vols == old(vols) && !ok
    {
      ok := false;
      if v in vols {
        ok := *;
        ok := ok || perfect;
        var partial: Content := *;
        vols := vols[v := vols[v].(files := if ok then database else partial)];
      }
    }
  }
}
