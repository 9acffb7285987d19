/** The configuration directory and the live configuration: replacing all four documents, or one, when any write may
    fail (apply_bundle and apply_document in tga3/src/tga3/config.py). */
module ConfigStore {
  import opened Domain
  import opened Config

  /** Documents are numbered in the order of ConfigBundle.documents(): models, agents, scenes, runtime. */
  const DOCUMENTS := 4

  /** Half: the write was interrupted. */
  datatype Content = Json(doc: Document) | Half

  function DocumentOf(b: Bundle, k: nat): Document
    requires k < DOCUMENTS
  {
    if k == 0 then ModelsDoc(b.models)
    else if k == 1 then AgentsDoc(b.agents)
    else if k == 2 then ScenesDoc(b.scenes)
    else RuntimeDoc(b.runtime)
  }

  function NumberOf(doc: Document): (k: nat)
    ensures k < DOCUMENTS
  {
    match doc case ModelsDoc(_) => 0 case AgentsDoc(_) => 1 case ScenesDoc(_) => 2 case RuntimeDoc(_) => 3
  }

  /** What the failing step of a rollback leaves beside the document: nothing or half a recovery file when writing it raised,
      the complete file when putting it in place did. */
  datatype Recovery = NoFile | HalfFile | WholeFile

  /** Which step raises: the staging write of document k, leaving a half-written file or none; or the replacement of
      document k, after which the rollback of the documents before it succeeds for the first few only; or the creation of
      the runtime directories, which comes after everything has been written and assigned. */
  datatype Fault =
    | NoFault
    | Staging(k: nat, created: bool)
    | Replacing(k: nat, recovered: nat, recovery: Recovery)
    | Directories

  predicate Possible(fault: Fault) {
    match fault
    case NoFault => true
    case Directories => true
    case Staging(k, _) => k < DOCUMENTS
    case Replacing(k, recovered, _) => recovered <= k < DOCUMENTS
  }

  /** The call got past its try block, whether or not it then returned. */
  predicate Written(fault: Fault) {
    fault.NoFault? || fault.Directories?
  }

  predicate RollbackSucceeds(fault: Fault) {
    fault.Replacing? ==> fault.recovered == fault.k
  }

  /** Whether document k holds the bundle after the call: all do, none does, or those whose rollback was cut short. */
  predicate IsNew(fault: Fault, k: nat) {
    match fault
    case NoFault => true
    case Directories => true
    case Staging(_, _) => false
    case Replacing(failed, recovered, _) => recovered <= k < failed
  }

  function TargetsAfter(targets: seq<Content>, b: Bundle, fault: Fault): (r: seq<Content>)
    requires |targets| == DOCUMENTS
    ensures |r| == DOCUMENTS
  {
    seq(DOCUMENTS, k requires 0 <= k < DOCUMENTS => if IsNew(fault, k) then Json(DocumentOf(b, k)) else targets[k])
  }

  /** The temporary files that stay behind. */
  function Left(targets: seq<Content>, fault: Fault): seq<Content>
    requires |targets| == DOCUMENTS && Possible(fault)
  {
    match fault
    case NoFault => []
    case Directories => []
    case Staging(_, created) => if created then [Half] else []
    case Replacing(k, recovered, recovery) =>
      if recovered == k || recovery.NoFile? then [] else if recovery.HalfFile? then [Half] else [targets[recovered]]
  }

  predicate Holds(targets: seq<Content>, b: Bundle) {
    |targets| == DOCUMENTS && forall k :: 0 <= k < DOCUMENTS ==> targets[k] == Json(DocumentOf(b, k))
  }

  /** Every document of the bundle is new to its file. */
  predicate Differs(targets: seq<Content>, b: Bundle) {
    |targets| == DOCUMENTS && forall k :: 0 <= k < DOCUMENTS ==> targets[k] != Json(DocumentOf(b, k))
  }

  /** Some document is the old one and some is the bundle's. */
  predicate Mixed(targets: seq<Content>, b: Bundle, after: seq<Content>) {
    |targets| == |after| == DOCUMENTS
    && (exists j :: 0 <= j < DOCUMENTS && after[j] == targets[j])
    && (exists k :: 0 <= k < DOCUMENTS && after[k] == Json(DocumentOf(b, k)))
  }

  /** All or nothing. When every document is new, a call leaves all four files as they were if and only if it raised before
      all were replaced and its rollback went through; and it leaves them partly replaced if and only if a rollback write
      raised as well. */
  lemma AllOrNothingIff(targets: seq<Content>, b: Bundle, fault: Fault)
    requires Differs(targets, b) && Possible(fault)
    ensures TargetsAfter(targets, b, fault) == targets <==> !Written(fault) && RollbackSucceeds(fault)
    ensures Mixed(targets, b, TargetsAfter(targets, b, fault)) <==> !RollbackSucceeds(fault)
  {
    var after := TargetsAfter(targets, b, fault);
    if Written(fault) {
      assert after[0] == Json(DocumentOf(b, 0));
    } else if !RollbackSucceeds(fault) {
      assert after[fault.recovered] == Json(DocumentOf(b, fault.recovered)) && after[fault.k] == targets[fault.k];
    } else {
      forall k | 0 <= k < DOCUMENTS ensures after[k] == targets[k] {
      }
    }
  }

  /** The same without a condition on the contents: a failing step leaves the files alone whatever they held and whatever the
      bundle, if and only if it comes before all were replaced and the rollback goes through. */
  lemma LeavesAnyFilesIff(fault: Fault)
    requires Possible(fault)
    ensures (forall targets, b :: |targets| == DOCUMENTS ==> TargetsAfter(targets, b, fault) == targets)
       <==> !Written(fault) && RollbackSucceeds(fault)
  {
    if !Written(fault) && RollbackSucceeds(fault) {
      forall targets: seq<Content>, b | |targets| == DOCUMENTS ensures TargetsAfter(targets, b, fault) == targets {
        forall k | 0 <= k < DOCUMENTS ensures TargetsAfter(targets, b, fault)[k] == targets[k] {
        }
      }
    } else {
      var b := Bundle([], map[], [], Runtimes(map[], ""));
      AllOrNothingIff([Half, Half, Half, Half], b, fault);
    }
  }

  /** At most one file is left behind. It is complete if and only if putting a recovered document in place raised, and then it
      holds the original of the first document that was not recovered. */
  lemma LeftoverIff(targets: seq<Content>, fault: Fault)
    requires |targets| == DOCUMENTS && Possible(fault) && Half !in targets
    ensures var left := Left(targets, fault);
      && |left| <= 1
      && (left == [] <==> Written(fault) || (fault.Staging? && !fault.created)
                          || (fault.Replacing? && (RollbackSucceeds(fault) || fault.recovery == NoFile)))
      && (left != [] ==> (left[0] != Half <==> fault.Replacing? && fault.recovery == WholeFile)
                         && (left[0] != Half ==> left[0] == targets[fault.recovered]))
  {
  }

  /** A call that raises and could be rolled back, or that returns, leaves files that hold the live configuration. */
  lemma HeldAfterwards(targets: seq<Content>, before: Bundle, b: Bundle, fault: Fault)
    requires Holds(targets, before) && RollbackSucceeds(fault)
    ensures Holds(TargetsAfter(targets, b, fault), if Written(fault) then b else before)
  {
  }

  lemma DocumentHeld(targets: seq<Content>, b: Bundle, doc: Document)
    requires Holds(targets, b)
    ensures Holds(targets[NumberOf(doc) := Json(doc)], With(b, doc))
  {
  }

  const NO_TEMPORARIES: seq<Option<Content>> := [None, None, None, None]

  class TGA3Config {
    /** The four files. */
    var targets: seq<Content>
    /** The temporary files of the call in progress; their names are fresh, so no other call meets them. */
    var temporaries: seq<Option<Content>>
    /** Temporary and recovery files that earlier calls left behind. */
    var debris: seq<Content>
    var live: Bundle

    /** The live configuration is valid and is what the files hold, so a restart reads the same. */
    predicate Valid()
      reads this
    {
      Config.Valid(TGA3_RULES, live) && Holds(targets, live) && temporaries == NO_TEMPORARIES
    }

    /** Loads a directory whose documents are complete and valid. */
    constructor (targets: seq<Content>, b: Bundle)
      requires Holds(targets, b) && Config.Valid(TGA3_RULES, b)
      ensures Valid() && live == b && this.targets == targets && debris == []
    {
      this.targets, temporaries, debris, live := targets, NO_TEMPORARIES, [], b;
    }

    method ApplyBundle(b: Bundle, fault: Fault) returns (ok: bool)
      requires Valid() && Possible(fault)
      modifies this
      ensures ok <==> Config.Valid(TGA3_RULES, b) && fault.NoFault?
      ensures live == if Config.Valid(TGA3_RULES, b) && Written(fault) then b else old(live)
      ensures targets == if Config.Valid(TGA3_RULES, b) then TargetsAfter(old(targets), b, fault) else old(targets)
      ensures debris == if Config.Valid(TGA3_RULES, b) then old(debris) + Left(old(targets), fault) else old(debris)
      ensures RollbackSucceeds(fault) ==> Valid()
      ensures Config.Valid(TGA3_RULES, b) && Differs(old(targets), b) ==>
        (targets == old(targets) <==> !Written(fault) && RollbackSucceeds(fault))
    {
      if !Config.Valid(TGA3_RULES, b) {
        return false;
      }
      if Differs(targets, b) {
        AllOrNothingIff(targets, b, fault);
      }
      if RollbackSucceeds(fault) {
        HeldAfterwards(targets, live, b, fault);
      }
      var written := WriteAll(b, fault);
      if written {
        live := b;
      }
      return written && !fault.Directories?;
    }

    /** The try, except and finally blocks of apply_bundle. */
    method WriteAll(b: Bundle, fault: Fault) returns (ok: bool)
      requires |targets| == DOCUMENTS && temporaries == NO_TEMPORARIES && Possible(fault)
      modifies this`targets, this`temporaries, this`debris
      ensures ok <==> Written(fault)
      ensures targets == TargetsAfter(old(targets), b, fault)
      ensures debris == old(debris) + Left(old(targets), fault) && temporaries == NO_TEMPORARIES
    {
      var originals := targets;
      ok := true;
      var staged := Stage(b, fault);
      if staged < DOCUMENTS {
        ok := false;
      } else {
        ok := Replace(b, fault);
        if !ok {
          Recover(originals, b, fault);
        }
      }
      Unlink(staged);
      // what is still there keeps its name for ever; the next call draws fresh ones
      debris := debris + if staged < DOCUMENTS && temporaries[staged].Some? then [Half] else [];
      temporaries := NO_TEMPORARIES;
    }

    /** The staging loop: writes the temporary files in order; returns how many it completed. */
    method Stage(b: Bundle, fault: Fault) returns (n: nat)
      requires temporaries == NO_TEMPORARIES && Possible(fault)
      modifies this`temporaries
      ensures n == if fault.Staging? then fault.k else DOCUMENTS
      ensures |temporaries| == DOCUMENTS
      ensures forall k :: 0 <= k < n ==> temporaries[k] == Some(Json(DocumentOf(b, k)))
      ensures forall k :: n <= k < DOCUMENTS ==>
        temporaries[k] == if k == n && fault.Staging? && fault.created then Some(Half) else None
    {
      n := 0;
      while n < DOCUMENTS
        invariant 0 <= n <= DOCUMENTS && |temporaries| == DOCUMENTS
        invariant fault.Staging? ==> n <= fault.k
        invariant forall k :: 0 <= k < n ==> temporaries[k] == Some(Json(DocumentOf(b, k)))
        invariant forall k :: n <= k < DOCUMENTS ==> temporaries[k] == None
      {
        if fault.Staging? && fault.k == n {
          if fault.created {
            temporaries := temporaries[n := Some(Half)];
          }
          return;
        }
        temporaries := temporaries[n := Some(Json(DocumentOf(b, n)))];
        n := n + 1;
      }
    }

    /** The replacing loop: each temporary file takes the place of its document, until one replacement raises. */
    method Replace(b: Bundle, fault: Fault) returns (ok: bool)
      requires |targets| == |temporaries| == DOCUMENTS && Possible(fault)
      requires forall k :: 0 <= k < DOCUMENTS ==> temporaries[k] == Some(Json(DocumentOf(b, k)))
      modifies this`targets, this`temporaries
      ensures ok <==> !fault.Replacing?
      ensures |targets| == |temporaries| == DOCUMENTS
      ensures forall k :: 0 <= k < DOCUMENTS ==>
        targets[k] == if ok || k < fault.k then Json(DocumentOf(b, k)) else old(targets[k])
    {
      var i := 0;
      while i < DOCUMENTS
        invariant 0 <= i <= DOCUMENTS && |targets| == |temporaries| == DOCUMENTS
        invariant fault.Replacing? ==> i <= fault.k
        invariant forall k :: 0 <= k < i ==> targets[k] == Json(DocumentOf(b, k))
        invariant forall k :: i <= k < DOCUMENTS ==>
          targets[k] == old(targets[k]) && temporaries[k] == Some(Json(DocumentOf(b, k)))
      {
        if fault.Replacing? && fault.k == i {
          return false;
        }
        targets, temporaries := targets[i := temporaries[i].value], temporaries[i := None];
        i := i + 1;
      }
      return true;
    }

    /** The rollback: the replaced documents get their original bytes back, until one of these writes raises. */
    method Recover(originals: seq<Content>, b: Bundle, fault: Fault)
      requires fault.Replacing? && Possible(fault) && |originals| == |targets| == DOCUMENTS
      requires forall k :: 0 <= k < DOCUMENTS ==>
        targets[k] == if k < fault.k then Json(DocumentOf(b, k)) else originals[k]
      modifies this`targets, this`debris
      ensures targets == TargetsAfter(originals, b, fault)
      ensures debris == old(debris) + Left(originals, fault)
    {
      var j := 0;
      while j < fault.recovered
        invariant 0 <= j <= fault.recovered && |targets| == DOCUMENTS && debris == old(debris)
        invariant forall k :: 0 <= k < DOCUMENTS ==>
          targets[k] == if j <= k < fault.k then Json(DocumentOf(b, k)) else originals[k]
      {
        targets := targets[j := originals[j]];
        j := j + 1;
      }
      if fault.recovered < fault.k && !fault.recovery.NoFile? {
        debris := debris + [if fault.recovery.HalfFile? then Half else originals[fault.recovered]];
      }
    }

    /** The finally block: the staged files that are still there are removed. */
    method Unlink(staged: nat)
      requires staged <= |temporaries|
      modifies this`temporaries
      ensures |temporaries| == old(|temporaries|)
      ensures forall k :: 0 <= k < |temporaries| ==> temporaries[k] == if k < staged then None else old(temporaries[k])
    {
      var i := 0;
      while i < staged
        invariant 0 <= i <= staged && |temporaries| == old(|temporaries|)
        invariant forall k :: 0 <= k < |temporaries| ==> temporaries[k] == if k < i then None else old(temporaries[k])
      {
        temporaries := temporaries[i := None];
        i := i + 1;
      }
    }

    /** apply_document: writeFails says whether the write or the replacement raises, and its temporary file is removed in
        every case; directoriesFail says whether the creation of the runtime directories raises afterwards. */
    method ApplyDocument(doc: Document, writeFails: bool, directoriesFail: bool) returns (ok: bool)
      requires Valid()
      modifies this
      ensures Valid()
      ensures ok <==> MayApply(TGA3_RULES, old(live), doc) && !writeFails && !directoriesFail
      ensures var written := MayApply(TGA3_RULES, old(live), doc) && !writeFails;
        && live == (if written then With(old(live), doc) else old(live))
        && targets == if written then old(targets)[NumberOf(doc) := Json(doc)] else old(targets)
      ensures debris == old(debris)
    {
      if !MayApply(TGA3_RULES, live, doc) || writeFails {
        return false;
      }
      DocumentHeld(targets, live, doc);
      targets := targets[NumberOf(doc) := Json(doc)];
      live := With(live, doc);
      return !directoriesFail;
    }
  }
}
