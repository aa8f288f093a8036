/**
 Error classes of the ingress WAL.  A Go error joined from several others is the set of the
 classes it wraps: errors.Is is membership, errors.Join is union, nil is the empty set.
 */
module IngressErrors {
  datatype Err =
    | AppendErr | ApplyErr | RouteErr | FlushErr | ReplayErr
    | Canceled | Deadline
    | Corrupt | Incompatible | Ownership | Closed | Unsupported | Full
    | Backpressure | Other

  type Error = set<Err>

  const Permanent: Error := {Corrupt, Incompatible, Ownership, Closed, Unsupported}

  // The first of a list of classes that err wraps.
  function FirstOf(err: Error, classes: seq<Err>): (r: Error)
    ensures r == {} <==> forall c | c in classes :: c !in err
    ensures r != {} ==> exists c :: c in classes && c in err && r == {c}
  {
    if classes == [] then {}
    else if classes[0] in err then {classes[0]}
    else FirstOf(err, classes[1..])
  }

  // The bounded class a replay error is reported as, and whether it is permanent.
  function Bounded(err: Error): (r: (Error, bool)) {
    if ApplyErr in err then ({ApplyErr}, true)
    else if RouteErr in err then ({RouteErr}, true)
    else if Canceled in err then ({Canceled}, false)
    else if Deadline in err then ({Deadline}, false)
    else
      var bounded := FirstOf(err, [RouteErr, ApplyErr, FlushErr]);
      if bounded != {} then (bounded, RouteErr in err || ApplyErr in err)
      else
        var permanent := FirstOf(err, [Corrupt, Incompatible, Ownership, Closed, Unsupported]);
        if permanent != {} then ({ReplayErr} + permanent, true) else ({ReplayErr}, false)
  }

  // A reported class that closes replay for good.
  predicate IsPermanent(err: Error) {
    ApplyErr in err || RouteErr in err || (ReplayErr in err && err * Permanent != {})
  }

  // c is wrapped, and nothing that is reported before it is.
  ghost predicate Leads(c: Err, err: Error) {
    && c in err
    && (c == RouteErr || c == Canceled || c == Deadline || c == FlushErr ==> ApplyErr !in err)
    && (c == Canceled || c == Deadline || c == FlushErr ==> RouteErr !in err)
    && (c == Deadline || c == FlushErr ==> Canceled !in err)
    && (c == FlushErr ==> Deadline !in err)
  }

  // Exactly which joined errors are permanent: an application or route failure always, a
  // storage failure unless a cancellation or an unfinished delivery is joined to it.  What is
  // reported is never empty, wraps nothing the input did not (but the generic replay class),
  // never carries a raw storage error, and says by itself whether it is permanent.  It is the
  // first of application, route, cancellation, deadline and pending delivery, or the generic class.
  lemma BoundedMeaning(err: Error)
    ensures
      var (r, permanent) := Bounded(err);
      && (permanent <==> ApplyErr in err || RouteErr in err
                         || (err !! {Canceled, Deadline, FlushErr} && err * Permanent != {}))
      && (permanent <==> IsPermanent(r))
      && r != {} && r <= err + {ReplayErr} && Other !in r && Backpressure !in r
      && (FlushErr in r ==> FlushErr in err)
      && (forall c | c in {ApplyErr, RouteErr, Canceled, Deadline, FlushErr} && Leads(c, err) :: r == {c})
      && (err !! {ApplyErr, RouteErr, Canceled, Deadline, FlushErr} ==> ReplayErr in r)
  {
    if err * Permanent != {} {
      var c :| c in err * Permanent;
    }
  }
}
