/**
  The options an agent offers with a permission request, and which of them each
  answer stands for.
 */
module PermissionOptions {
  import opened ConnModel

  datatype OptionKind = AllowOnce | AllowAlways | RejectOnce | RejectAlways | UnknownKind
  datatype PermissionOption = PermissionOption(kind: OptionKind, id: string)

  /** The id of the last option of a kind; "" if there is none. */
  function LastId(opts: seq<PermissionOption>, kind: OptionKind): string {
    if opts == [] then ""
    else if opts[|opts| - 1].kind == kind then opts[|opts| - 1].id
    else LastId(opts[..|opts| - 1], kind)
  }

  /** The first id of a kind that is not empty; "" if there is none. */
  function FirstId(opts: seq<PermissionOption>, kind: OptionKind): string {
    if opts == [] then ""
    else if FirstId(opts[..|opts| - 1], kind) != "" then FirstId(opts[..|opts| - 1], kind)
    else if opts[|opts| - 1].kind == kind then opts[|opts| - 1].id
    else ""
  }

  /** The options after the last of a kind; all of them if there is none. */
  function SinceLast(opts: seq<PermissionOption>, kind: OptionKind): seq<PermissionOption> {
    if opts == [] || opts[|opts| - 1].kind == kind then []
    else SinceLast(opts[..|opts| - 1], kind) + [opts[|opts| - 1]]
  }

  ghost predicate Has(opts: seq<PermissionOption>, kind: OptionKind) {
    exists i :: 0 <= i < |opts| && opts[i].kind == kind
  }

  ghost predicate AllHaveIds(opts: seq<PermissionOption>) {
    forall i :: 0 <= i < |opts| ==> opts[i].id != ""
  }

  lemma {:induction false} IdsAreOffered(opts: seq<PermissionOption>, kind: OptionKind)
    ensures LastId(opts, kind) != "" ==> PermissionOption(kind, LastId(opts, kind)) in opts
    ensures FirstId(opts, kind) != "" ==> PermissionOption(kind, FirstId(opts, kind)) in opts
    ensures AllHaveIds(opts) ==> (LastId(opts, kind) != "" <==> Has(opts, kind))
    ensures AllHaveIds(opts) ==> (FirstId(opts, kind) != "" <==> Has(opts, kind))
  {
    if opts != [] {
      var n := |opts| - 1;
      IdsAreOffered(opts[..n], kind);
      assert opts == opts[..n] + [opts[n]];
      assert forall i :: 0 <= i < n ==> opts[..n][i] == opts[i];
    }
  }

  lemma {:induction false} SinceLastIs(opts: seq<PermissionOption>, kind: OptionKind)
    ensures forall o :: o in SinceLast(opts, kind) ==> o in opts
    ensures !Has(opts, kind) ==> SinceLast(opts, kind) == opts
  {
    if opts != [] {
      var n := |opts| - 1;
      SinceLastIs(opts[..n], kind);
      assert opts == opts[..n] + [opts[n]];
      assert forall i :: 0 <= i < n ==> opts[..n][i] == opts[i];
    }
  }

  /** The first id, or the second if that is empty. */
  function Or(a: string, b: string): string { if a != "" then a else b }

  function DenyId(opts: seq<PermissionOption>): string {
    Or(LastId(opts, RejectOnce), FirstId(SinceLast(opts, RejectOnce), RejectAlways))
  }

  lemma DenyIsOffered(opts: seq<PermissionOption>)
    ensures var id := DenyId(opts);
            id != "" ==> PermissionOption(RejectOnce, id) in opts || PermissionOption(RejectAlways, id) in opts
    ensures AllHaveIds(opts) ==> (DenyId(opts) != "" <==> Has(opts, RejectOnce) || Has(opts, RejectAlways))
  {
    IdsAreOffered(opts, RejectOnce);
    IdsAreOffered(opts, RejectAlways);
    SinceLastIs(opts, RejectOnce);
    IdsAreOffered(SinceLast(opts, RejectOnce), RejectAlways);
    hide LastId, FirstId, SinceLast;
  }

  lemma OneMoreOption(opts: seq<PermissionOption>, k: nat, kind: OptionKind)
    requires k < |opts|
    ensures LastId(opts[..k + 1], kind) == if opts[k].kind == kind then opts[k].id else LastId(opts[..k], kind)
    ensures SinceLast(opts[..k + 1], kind) ==
            if opts[k].kind == kind then [] else SinceLast(opts[..k], kind) + [opts[k]]
  {
    assert opts[..k + 1][..k] == opts[..k];
  }

  lemma FirstSnoc(opts: seq<PermissionOption>, o: PermissionOption, kind: OptionKind)
    ensures FirstId(opts + [o], kind) == Or(FirstId(opts, kind), if o.kind == kind then o.id else "")
  {
    assert (opts + [o])[..|opts|] == opts;
  }

  lemma DenyOneMore(opts: seq<PermissionOption>, k: nat)
    requires k < |opts|
    ensures DenyId(opts[..k + 1]) ==
            match opts[k].kind
            case RejectOnce => Or(opts[k].id, "")
            case RejectAlways => Or(DenyId(opts[..k]), opts[k].id)
            case _ => DenyId(opts[..k])
  {
    OneMoreOption(opts, k, RejectOnce);
    FirstSnoc(SinceLast(opts[..k], RejectOnce), opts[k], RejectAlways);
    assert FirstId([], RejectAlways) == "";
    hide LastId, FirstId, SinceLast;
  }

  /** The options each answer picks, of those offered. */
  function Offered(opts: seq<PermissionOption>): Options {
    Options(Or(LastId(opts, AllowOnce), LastId(opts, AllowAlways)), LastId(opts, AllowAlways), DenyId(opts))
  }
}
