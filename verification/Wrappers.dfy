/** Values shared by every part of the model. */
module Wrappers {
  datatype Option<+T> = None | Some(value: T) {
    function GetOr(default: T): T {
      match this
      case Some(v) => v
      case None => default
    }
  }

  datatype Result<+T, +E> = Ok(value: T) | Err(error: E)
}

/** The daemon's status updates (daemon/service.go). Only the fields that some
    branch of the modelled code reads are kept: the state and the error. */
module Updates {
  import opened Wrappers

  type Error = string

  datatype Status =
    | Init | Starting | Locked | Unlocked | Syncing | Ready
    | NoWallet | Down | Scanning | Block | Transaction

  datatype Update = Update(state: Status, err: Option<Error>)

  /** A Down update that carries an error: what the run loop treats as a crash. */
  predicate IsCrash(u: Update) {
    u.state == Down && u.err.Some?
  }

  /** The error of the first crash in a sequence of updates, if there is one. */
  function FirstCrash(us: seq<Update>): Option<Error> {
    if us == [] then None
    else if IsCrash(us[0]) then us[0].err
    else FirstCrash(us[1..])
  }

  lemma {:induction false} FirstCrashAppend(us: seq<Update>, u: Update)
    ensures FirstCrash(us + [u]) ==
            if FirstCrash(us).Some? then FirstCrash(us)
            else if IsCrash(u) then u.err else None
  {
    if us == [] {
      assert [u][1..] == [];
    } else {
      assert (us + [u])[1..] == us[1..] + [u];
      FirstCrashAppend(us[1..], u);
    }
  }

  /** FirstCrash is what its name says: the earliest crash decides, and there
      is none exactly when no update is a crash. */
  lemma {:induction false} FirstCrashIsFirst(us: seq<Update>)
    ensures FirstCrash(us).None? <==> forall i :: 0 <= i < |us| ==> !IsCrash(us[i])
    ensures forall i :: 0 <= i < |us| && IsCrash(us[i]) && (forall j :: 0 <= j < i ==> !IsCrash(us[j]))
                        ==> FirstCrash(us) == us[i].err
  {
    if us != [] {
      FirstCrashIsFirst(us[1..]);
      assert forall i :: 0 < i < |us| ==> us[i] == us[1..][i - 1];
      if IsCrash(us[0]) {
      } else {
        forall i | 0 <= i < |us| && IsCrash(us[i]) && (forall j :: 0 <= j < i ==> !IsCrash(us[j]))
          ensures FirstCrash(us) == us[i].err
        {
          assert us[1..][i - 1] == us[i];
          forall j | 0 <= j < i - 1 ensures !IsCrash(us[1..][j]) {
            assert us[1..][j] == us[j + 1];
          }
        }
      }
    }
  }
}
