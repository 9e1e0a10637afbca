/** The receptor/ligand/solvent bookkeeping of a two-molecule transform
    (RbtBaseBiMolTransform): on each workspace notification it compares the
    workspace's models with the ones it holds, takes over whichever changed and
    runs the matching setup hooks, then the transform's own setup. */
module BiMolTransform {

  /** A model handle: null, or a model identity. */
  datatype ModelPtr = Null | Model(id: nat)

  /** An observed subject, by identity. */
  type SubjectId = nat

  /** The setup hooks, recorded in the order they run. */
  datatype Hook = SetupReceptor | SetupLigand | SetupSolvent | SetupTransform

  /** The models a transform holds. */
  datatype Stored = Stored(receptor: ModelPtr, ligand: ModelPtr, solvent: seq<ModelPtr>)

  /** Where each hook runs within one update. */
  function Rank(h: Hook): nat
  {
    match h
    case SetupReceptor => 0
    case SetupLigand => 1
    case SetupSolvent => 2
    case SetupTransform => 3
  }

  /** The solvent models of a workspace: models 2 onwards, none when there are fewer than 3. */
  function SolventModels(models: seq<ModelPtr>): (r: seq<ModelPtr>)
    ensures |r| == if |models| >= 3 then |models| - 2 else 0
    ensures forall i :: 0 <= i < |r| ==> r[i] == models[i + 2]
  {
    if |models| >= 3 then models[2..] else []
  }

  /** Receptor (model 0) and ligand (model 1) are replaced when present and
      different; the solvent list is replaced only when its size changes. */
  predicate ReceptorChanges(s: Stored, models: seq<ModelPtr>)
  {
    |models| >= 1 && models[0] != s.receptor
  }

  predicate LigandChanges(s: Stored, models: seq<ModelPtr>)
  {
    |models| >= 2 && models[1] != s.ligand
  }

  predicate SolventChanges(s: Stored, models: seq<ModelPtr>)
  {
    |SolventModels(models)| != |s.solvent|
  }

  /** One update from the workspace's model list: the new stored models and the
      hooks it runs, each at most once, in rank order, ending with SetupTransform. */
  function UpdateRule(s: Stored, models: seq<ModelPtr>): (r: (Stored, seq<Hook>))
    ensures |r.1| >= 1 && r.1[|r.1| - 1] == SetupTransform
    ensures forall i, j :: 0 <= i < j < |r.1| ==> Rank(r.1[i]) < Rank(r.1[j])
  {
    var receptorHooks := if ReceptorChanges(s, models) then [SetupReceptor] else [];
    var ligandHooks := if LigandChanges(s, models) then [SetupLigand] else [];
    var solventHooks := if SolventChanges(s, models) then [SetupSolvent] else [];
    var next := Stored(
      if ReceptorChanges(s, models) then models[0] else s.receptor,
      if LigandChanges(s, models) then models[1] else s.ligand,
      if SolventChanges(s, models) then SolventModels(models) else s.solvent);
    (next, receptorHooks + ligandHooks + solventHooks + [SetupTransform])
  }

  /** Each setup hook runs exactly when its model changes, and the stored model
      is taken over exactly then; otherwise the old one is kept. */
  lemma HooksMatchChanges(s: Stored, models: seq<ModelPtr>)
    ensures var (next, hooks) := UpdateRule(s, models);
            && (SetupReceptor in hooks <==> |models| >= 1 && models[0] != s.receptor)
            && (SetupLigand in hooks <==> |models| >= 2 && models[1] != s.ligand)
            && (SetupSolvent in hooks <==> |SolventModels(models)| != |s.solvent|)
            && next.receptor == (if SetupReceptor in hooks then models[0] else s.receptor)
            && next.ligand == (if SetupLigand in hooks then models[1] else s.ligand)
            && next.solvent == (if SetupSolvent in hooks then SolventModels(models) else s.solvent)
  {
  }

  /** Receptor and ligand are never cleared when the workspace holds fewer models. */
  lemma NeverCleared(s: Stored, models: seq<ModelPtr>)
    ensures |models| == 0 ==> UpdateRule(s, models).0.receptor == s.receptor
    ensures |models| <= 1 ==> UpdateRule(s, models).0.ligand == s.ligand
  {
  }

  /** Only the solvent count is compared: a same-size list with other models is
      neither taken over nor set up. */
  lemma SameSizeSolventIgnored(s: Stored, models: seq<ModelPtr>)
    requires |SolventModels(models)| == |s.solvent| && SolventModels(models) != s.solvent
    ensures UpdateRule(s, models).0.solvent == s.solvent
    ensures SetupSolvent !in UpdateRule(s, models).1
  {
  }

  /** A second update with an unchanged workspace runs only SetupTransform and
      keeps every stored model. */
  lemma {:induction false} SecondUpdateOnlyTransform(s: Stored, models: seq<ModelPtr>)
    ensures var once := UpdateRule(s, models).0;
            UpdateRule(once, models) == (once, [SetupTransform])
  {
    var once := UpdateRule(s, models).0;
    assert !ReceptorChanges(once, models);
    assert !LigandChanges(once, models);
    assert !SolventChanges(once, models);
    assert [] + [] + [] + [SetupTransform] == [SetupTransform];
  }

  class BaseBiMolTransform {
    /** The workspace this transform observes (GetWorkSpace()). */
    const workSpace: SubjectId
    var receptor: ModelPtr
    var ligand: ModelPtr
    var solvent: seq<ModelPtr>
    /** The setup hooks run so far, in order. */
    ghost var trace: seq<Hook>

    function State(): Stored
      reads this
    {
      Stored(receptor, ligand, solvent)
    }

    constructor(workSpace: SubjectId)
      ensures this.workSpace == workSpace
      ensures receptor == Null && ligand == Null && solvent == [] && trace == []
    {
      this.workSpace := workSpace;
      receptor := Null;
      ligand := Null;
      solvent := [];
      trace := [];
    }

    method GetReceptor() returns (r: ModelPtr)
      ensures r == receptor
    {
      r := receptor;
    }

    method GetLigand() returns (r: ModelPtr)
      ensures r == ligand
    {
      r := ligand;
    }

    method GetSolvent() returns (r: seq<ModelPtr>)
      ensures r == solvent
    {
      r := solvent;
    }

    /** The observer callback. A notification from any other subject changes
        nothing; one from the workspace applies UpdateRule to its model list. */
    method Update(changedSubject: SubjectId, models: seq<ModelPtr>)
      modifies this
      ensures changedSubject != workSpace ==> State() == old(State()) && trace == old(trace)
      ensures changedSubject == workSpace ==>
                State() == UpdateRule(old(State()), models).0 &&
                trace == old(trace) + UpdateRule(old(State()), models).1
    {
      if changedSubject == workSpace {
        ghost var before := State();
        ghost var hooks: seq<Hook> := [];
        var numModels := |models|;
        if numModels >= 1 {
          var spReceptor := models[0];
          if spReceptor != receptor {
            receptor := spReceptor;
            hooks := hooks + [SetupReceptor];
          }
        }
        if numModels >= 2 {
          var spLigand := models[1];
          if spLigand != ligand {
            ligand := spLigand;
            hooks := hooks + [SetupLigand];
          }
        }
        var solventList: seq<ModelPtr> := [];
        if numModels >= 3 {
          solventList := models[2..];
        }
        if |solventList| != |solvent| {
          solvent := solventList;
          hooks := hooks + [SetupSolvent];
        }
        hooks := hooks + [SetupTransform];
        trace := trace + hooks;
        assert State() == UpdateRule(before, models).0;
        assert hooks == UpdateRule(before, models).1;
      }
    }
  }
}
