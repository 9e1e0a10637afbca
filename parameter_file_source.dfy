/** The sectioned parameter store of a parameter file (RbtParameterFileSource):
    an unnamed global section, the named sections in the order they were
    added, an index from section name to position, and the current-section
    cursor that scopes counts, lists and parameter names. */
module ParameterFiles {
  import opened Wrappers
  import opened Text

  /** A parameter value as stored (RbtVariant); coercions are not modelled. */
  type Variant = string

  /** A section: its name, fixed when it is made, and its own parameters. */
  datatype Section = Section(name: string, params: map<string, Variant>)

  /** The current-section cursor: the global section or a named section by position. */
  datatype Cursor = Global | Named(index: nat)

  datatype SectionError = UnknownSection(name: string)

  /** The separator of fully-qualified parameter names. */
  const Separator: string := "::"

  /** The name-to-index map and the section vector describe each other: every
      mapped index is in range and its section carries the mapped name, and
      every named section is mapped at its own position. The empty name is
      reserved for the global section. */
  predicate IndexConsistent(sections: seq<Section>, mapping: map<string, nat>)
  {
    && "" !in mapping
    && (forall n :: n in mapping ==> mapping[n] < |sections| && sections[mapping[n]].name == n)
    && (forall i :: 0 <= i < |sections| ==> sections[i].name in mapping && mapping[sections[i].name] == i)
  }

  /** In a consistent store no two named sections share a name. */
  lemma {:induction false} NamesDistinct(sections: seq<Section>, mapping: map<string, nat>, i: nat, j: nat)
    requires IndexConsistent(sections, mapping)
    requires i < j < |sections|
    ensures sections[i].name != sections[j].name
  {
    assert mapping[sections[i].name] == i;
    assert mapping[sections[j].name] == j;
  }

  /** `<section>::<name>` unless `name` already holds a section qualifier. */
  function FullParameterName(sectionName: string, paramName: string): (r: string)
    ensures Contains(r, Separator)
    ensures Contains(paramName, Separator) ==> r == paramName
    ensures !Contains(paramName, Separator) ==> r == sectionName + Separator + paramName
  {
    if Contains(paramName, Separator) then
      paramName
    else
      ContainsInfix(sectionName, Separator, paramName);
      sectionName + Separator + paramName
  }

  /** Qualifying a name twice is the same as qualifying it once, whatever section
      is current the second time. */
  lemma {:induction false} FullParameterNameIdempotent(s1: string, s2: string, paramName: string)
    ensures FullParameterName(s2, FullParameterName(s1, paramName)) == FullParameterName(s1, paramName)
  {
    var once := FullParameterName(s1, paramName);
    assert Contains(once, Separator);
  }

  class ParameterFileSource {
    var globalSection: Section
    var sections: seq<Section>
    var sectionNameMapping: map<string, nat>
    var currentSection: Cursor

    ghost predicate Valid()
      reads this
    {
      && globalSection.name == ""
      && IndexConsistent(sections, sectionNameMapping)
      && (currentSection.Named? ==> currentSection.index < |sections|)
    }

    /** A fresh store: only the empty global section, which is current. */
    constructor()
      ensures Valid()
      ensures globalSection == Section("", map[]) && sections == [] && sectionNameMapping == map[]
      ensures currentSection == Global
    {
      globalSection := Section("", map[]);
      sections := [];
      sectionNameMapping := map[];
      currentSection := Global;
    }

    /** The section the cursor points at. */
    function CurrentSection(): Section
      reads this
      requires Valid()
    {
      match currentSection
      case Global => globalSection
      case Named(i) => sections[i]
    }

    /** The current section's name: "" exactly for the global section, and
        otherwise a name the index maps back to the current position. */
    function GetCurrentSectionName(): (name: string)
      reads this
      requires Valid()
      ensures name == "" <==> currentSection == Global
      ensures currentSection.Named? ==>
                name in sectionNameMapping && sectionNameMapping[name] == currentSection.index
    {
      CurrentSection().name
    }

    /** Selects the named section, or the global one for the empty name (the
        default). An unknown name is an error and leaves the cursor where it was. */
    method SetCurrentSection(sectionName: string := "") returns (r: Result<(), SectionError>)
      requires Valid()
      modifies this`currentSection
      ensures Valid()
      ensures sectionName == "" ==> r.Ok? && currentSection == Global
      ensures sectionName != "" && sectionName in sectionNameMapping ==>
                r.Ok? && currentSection == Named(sectionNameMapping[sectionName])
      ensures sectionName != "" && sectionName !in sectionNameMapping ==>
                r == Err(UnknownSection(sectionName)) && currentSection == old(currentSection)
      ensures r.Ok? ==> GetCurrentSectionName() == sectionName
    {
      if sectionName == "" {
        currentSection := Global;
        r := Ok(());
      } else if sectionName in sectionNameMapping {
        currentSection := Named(sectionNameMapping[sectionName]);
        r := Ok(());
      } else {
        r := Err(UnknownSection(sectionName));
      }
    }

    /** The number of named sections. */
    function GetNumSections(): (n: nat)
      reads this
      requires Valid()
      ensures n == |sectionNameMapping.Keys|
    {
      SectionCount(sections, sectionNameMapping);
      |sections|
    }

    /** The names of all named sections, each once. */
    method GetSectionList() returns (names: seq<string>)
      requires Valid()
      ensures |names| == GetNumSections()
      ensures forall n :: n in names <==> n in sectionNameMapping
      ensures forall i, j :: 0 <= i < j < |names| ==> names[i] != names[j]
    {
      names := [];
      var k := 0;
      while k < |sections|
        invariant k <= |sections|
        invariant names == SectionNames(sections[..k])
      {
        names := names + [sections[k].name];
        k := k + 1;
        assert sections[..k] == sections[..k - 1] + [sections[k - 1]];
      }
      assert sections[..k] == sections;
      forall i, j | 0 <= i < j < |names|
        ensures names[i] != names[j]
      {
        NamesDistinct(sections, sectionNameMapping, i, j);
      }
    }

    /** The number of parameters in the current section only. */
    function GetNumParameters(): (n: nat)
      reads this
      requires Valid()
      ensures n == |CurrentSection().params.Keys|
    {
      |CurrentSection().params|
    }

    /** The names of the current section's parameters, each once. */
    method GetParameterList() returns (names: seq<string>)
      requires Valid()
      ensures |names| == GetNumParameters()
      ensures forall n :: n in names <==> n in CurrentSection().params
      ensures forall i, j :: 0 <= i < j < |names| ==> names[i] != names[j]
    {
      var keys := CurrentSection().params.Keys;
      var rest := keys;
      names := [];
      while rest != {}
        invariant rest <= keys
        invariant forall n :: n in names <==> n in keys - rest
        invariant forall i, j :: 0 <= i < j < |names| ==> names[i] != names[j]
        invariant |names| + |rest| == |keys|
        decreases |rest|
      {
        var n :| n in rest;
        assert n !in names;
        names := names + [n];
        rest := rest - {n};
      }
    }

    /** `<current section>::<name>`, or `name` itself when it is already qualified. */
    function GetFullParameterName(paramName: string): (r: string)
      reads this
      requires Valid()
      ensures Contains(r, Separator)
      ensures !Contains(paramName, Separator) ==> r == GetCurrentSectionName() + Separator + paramName
      ensures Contains(paramName, Separator) ==> r == paramName
    {
      FullParameterName(GetCurrentSectionName(), paramName)
    }

    /** How the file reader stores one `key = value` entry: into the global
        section for the empty section name, otherwise into the named section,
        which is appended and indexed the first time its name is seen. No
        other section changes, no section is renamed, the cursor stays. */
    method StoreParameter(sectionName: string, key: string, value: Variant)
      requires Valid()
      modifies this`globalSection, this`sections, this`sectionNameMapping
      ensures Valid()
      ensures sectionName == "" ==>
                globalSection == old(globalSection).(params := old(globalSection).params[key := value])
                && sections == old(sections) && sectionNameMapping == old(sectionNameMapping)
      ensures sectionName != "" ==>
                globalSection == old(globalSection)
                && sectionName in sectionNameMapping
                && sectionNameMapping == old(sectionNameMapping)[sectionName := sectionNameMapping[sectionName]]
                && sectionNameMapping[sectionName] < |sections|
                && key in sections[sectionNameMapping[sectionName]].params
                && sections[sectionNameMapping[sectionName]].params[key] == value
      ensures sectionName != "" && sectionName in old(sectionNameMapping) ==>
                var i := old(sectionNameMapping)[sectionName];
                sections == old(sections)[i := old(sections)[i].(params := old(sections)[i].params[key := value])]
      ensures sectionName != "" && sectionName !in old(sectionNameMapping) ==>
                sections == old(sections) + [Section(sectionName, map[key := value])]
      ensures |sections| >= |old(sections)|
      ensures forall i :: 0 <= i < |old(sections)| ==> sections[i].name == old(sections)[i].name
      ensures currentSection == old(currentSection)
    {
      if sectionName == "" {
        globalSection := globalSection.(params := globalSection.params[key := value]);
      } else if sectionName in sectionNameMapping {
        var i := sectionNameMapping[sectionName];
        sections := sections[i := sections[i].(params := sections[i].params[key := value])];
      } else {
        sections := sections + [Section(sectionName, map[key := value])];
        sectionNameMapping := sectionNameMapping[sectionName := |sections| - 1];
      }
    }
  }

  /** The same parameter name stored in two sections keeps an independent value
      in each: selecting either section shows that section's own value. */
  method SameKeyInTwoSections(a: string, b: string, key: string, va: Variant, vb: Variant)
    returns (seenInA: Variant, seenInB: Variant, countInA: nat)
    requires a != "" && b != "" && a != b
    ensures seenInA == va && seenInB == vb
    ensures countInA == 1
  {
    var src := new ParameterFileSource();
    src.StoreParameter(a, key, va);
    src.StoreParameter(b, key, vb);
    var ok := src.SetCurrentSection(a);
    assert src.CurrentSection().params == map[key := va];
    seenInA := src.CurrentSection().params[key];
    countInA := src.GetNumParameters();
    ok := src.SetCurrentSection(b);
    seenInB := src.CurrentSection().params[key];
  }

  function SectionNames(sections: seq<Section>): (names: seq<string>)
    ensures |names| == |sections|
    ensures forall i :: 0 <= i < |sections| ==> names[i] == sections[i].name
  {
    if sections == [] then [] else SectionNames(sections[..|sections| - 1]) + [sections[|sections| - 1].name]
  }

  /** As many named sections as indexed names. */
  lemma SectionCount(sections: seq<Section>, mapping: map<string, nat>)
    requires IndexConsistent(sections, mapping)
    ensures |sections| == |mapping.Keys|
  {
    var names := SectionNames(sections);
    forall i, j | 0 <= i < j < |names|
      ensures names[i] != names[j]
    {
      NamesDistinct(sections, mapping, i, j);
    }
    DistinctCardinality(names);
    assert (set n | n in names) == mapping.Keys;
  }

  /** A duplicate-free sequence has as many distinct elements as positions. */
  lemma {:induction false} DistinctCardinality(names: seq<string>)
    requires forall i, j :: 0 <= i < j < |names| ==> names[i] != names[j]
    ensures |set n | n in names| == |names|
  {
    if names != [] {
      var init := names[..|names| - 1];
      DistinctCardinality(init);
      assert (set n | n in names) == (set n | n in init) + {names[|names| - 1]};
    }
  }
}
