/**
 * The semantic visitor of the COBOL parser, restricted to its stateful core: the document
 * hierarchy it walks copybooks with, the resolution of qualified data names (`X OF Q1 OF ... Qn`)
 * with their usages and "invalid definition" diagnostics, and the misspelled-keyword warnings.
 *
 * The semantic context's queries (is a variable defined, does a parent contain a child) and the
 * keyword distance computation are outside this model; they are passed in as functions.
 */
module Visitor {
  import opened Wrappers
  import opened DocumentHierarchy

  const WARNING_LEVEL: int := 2
  const INFO_LEVEL: int := 3

  /** A diagnostic: its position (None stands for null), message and severity */
  datatype SyntaxError = SyntaxError(position: Option<Position>, suggestion: string, severity: int)

  /** A usage registered with the variables of the semantic context */
  datatype Usage = Usage(name: string, position: Option<Position>)

  /** The start token of a parse-tree node */
  datatype Token = Token(text: string, line: int, charPositionInLine: int)

  /** A parse-tree node: its text (all its tokens) and its start token */
  datatype Node = Node(text: string, start: Token)

  /** One `OF`/`IN` qualifier: `IN dataName2`, or `IN tableCall` whose data name is the qualifier */
  datatype QualifiedInData = InData(dataName2: Node) | InTable(tableCallDataName2: Node)

  /** qualifiedDataNameFormat1: the node, its data name if any, and its qualifiers in order */
  datatype QualifiedDataName = QualifiedDataName(node: Node, dataName: Option<Node>,
                                                 qualifiedInData: seq<QualifiedInData>)

  // ---------------------------------------------------------------------------------------------
  // Pure helpers
  // ---------------------------------------------------------------------------------------------

  function UpperChar(c: char): char
  {
    if 'a' <= c <= 'z' then (c as int - 32) as char else c
  }

  /** String.toUpperCase on US-ASCII letters */
  function Upper(s: string): (r: string)
    ensures |r| == |s|
    ensures forall i :: 0 <= i < |s| ==> r[i] == UpperChar(s[i])
  {
    seq(|s|, i requires 0 <= i < |s| => UpperChar(s[i]))
  }

  /** Upper-casing twice is upper-casing once, so addUsage's second toUpperCase changes nothing */
  lemma UpperIdempotent(s: string)
    ensures Upper(Upper(s)) == Upper(s)
  {
    assert forall i :: 0 <= i < |s| ==> Upper(Upper(s))[i] == Upper(s)[i];
  }

  /** The data name a qualifier names, whichever of its two forms it takes */
  function GetDataName2Context(node: QualifiedInData): Node
  {
    match node
    case InData(n) => n
    case InTable(n) => n
  }

  /** The last column of a token of `wrongToken`'s length that starts at `charPositionInLine` */
  function GetWrongTokenStopPosition(wrongToken: string, charPositionInLine: int): (r: int)
    ensures r - charPositionInLine + 1 == |wrongToken|
  {
    charPositionInLine + |wrongToken| - 1
  }

  /** The diagnostic of reportVariableNotDefined */
  function NotDefined(variable: string, position: Option<Position>): SyntaxError
  {
    SyntaxError(position, "Invalid definition for: " + variable, INFO_LEVEL)
  }

  /** The diagnostic of getSemanticError */
  function MisspelledKeyword(documentUri: string, wrongToken: string, startLine: int,
                             charPositionInLine: int, correctWord: string): SyntaxError
  {
    SyntaxError(Some(Position(documentUri, charPositionInLine,
                              GetWrongTokenStopPosition(wrongToken, charPositionInLine),
                              startLine, charPositionInLine, None)),
                "A misspelled word, maybe you want to put " + correctWord, WARNING_LEVEL)
  }

  /**
   * What throwWarning adds for a token: one warning exactly when the distance computation
   * proposes a keyword for the upper-cased token. The warning names that keyword, has severity 2,
   * is located in the visited document even inside a copybook, and spans the token's columns.
   */
  function Warning(closestKeyword: string -> Option<string>, documentUri: string,
                   wrongToken: string, startLine: int, charPositionInLine: int): (r: Option<SyntaxError>)
    ensures r.Some? <==> closestKeyword(Upper(wrongToken)).Some?
    ensures r.Some? ==>
              && r.value.severity == WARNING_LEVEL
              && r.value.suggestion == "A misspelled word, maybe you want to put "
                                       + closestKeyword(Upper(wrongToken)).value
              && r.value.position.Some?
              && r.value.position.value.documentUri == documentUri
              && r.value.position.value.line == startLine
              && r.value.position.value.start == charPositionInLine
              && r.value.position.value.stop - r.value.position.value.start + 1 == |wrongToken|
  {
    match closestKeyword(Upper(wrongToken))
    case None => None
    case Some(correctWord) =>
      Some(MisspelledKeyword(documentUri, wrongToken, startLine, charPositionInLine, correctWord))
  }

  function OptionToSeq<T>(o: Option<T>): seq<T>
  {
    if o.Some? then [o.value] else []
  }

  /** Java's List.indexOf: the first index holding an element equal to `p`, or -1 (also for null) */
  function IndexOf(ps: seq<Position>, p: Option<Position>): (r: int)
    ensures -1 <= r < |ps|
    ensures r >= 0 ==> p.Some? && ps[r] == p.value
    ensures r >= 0 ==> forall j :: 0 <= j < r ==> ps[j] != p.value
    ensures r == -1 ==> p.None? || forall j :: 0 <= j < |ps| ==> ps[j] != p.value
  {
    if p.None? || ps == [] then -1
    else if ps[0] == p.value then 0
    else var i := IndexOf(ps[1..], p); if i == -1 then -1 else i + 1
  }

  /** indexOf of the position findFirst returned is the index findFirst stopped at: positions
      before it carry other tokens, so none of them equals it */
  lemma IndexOfFirstMatch(ps: seq<Position>, text: string)
    ensures IndexOf(ps, FindFirst(ps, text)) == (if FirstMatch(ps, text).Some? then FirstMatch(ps, text).value as int else -1)
  {
    match FirstMatch(ps, text)
    case None =>
    case Some(i) =>
      var k := IndexOf(ps, Some(ps[i]));
      assert k >= 0 ==> Matches(ps[k], text);
  }

  // ---------------------------------------------------------------------------------------------
  // Specification of the qualified-name check
  // ---------------------------------------------------------------------------------------------

  /** What the qualified-name check reads and writes: the hierarchy, the diagnostics, the usages */
  datatype Walk = Walk(tracker: Tracker, errors: seq<SyntaxError>, usages: seq<Usage>)

  /** A walk and the exception that ended it early, if any */
  datatype Run = Run(walk: Walk, thrown: Option<Failure>)

  /**
   * iterateOverQualifiedDataNames over `nodes`: for each qualifier, check that it contains the
   * name resolved so far (reporting that name at `variablePosition` if not), resolve its position,
   * move on to it, and register its usage. An exception from the resolution ends the walk.
   */
  function Iterate(w: Walk, variable: string, variablePosition: Option<Position>,
                   nodes: seq<QualifiedInData>, contains: (string, string) -> bool): Run
    decreases |nodes|
  {
    if nodes == [] then Run(w, None)
    else
      var context := GetDataName2Context(nodes[0]);
      var parent := Upper(context.text);
      var errors := if contains(parent, variable) then w.errors
                    else w.errors + [NotDefined(variable, variablePosition)];
      match Retrieve(w.tracker, context.start.text)
      case Err(e) => Run(Walk(w.tracker, errors, w.usages), Some(e))
      case Ok(res) =>
        Iterate(Walk(res.tracker, errors, w.usages + [Usage(Upper(parent), res.position)]),
                parent, variablePosition, nodes[1..], contains)
  }

  /**
   * checkForVariable for the upper-cased data name `variable` of `ctx`: resolve the position of
   * the reference, report the name if it is undefined, register its usage, then walk the
   * qualifiers.
   */
  function CheckForVariableSpec(w: Walk, variable: string, ctx: QualifiedDataName,
                                defined: string -> bool, contains: (string, string) -> bool): Run
  {
    match Retrieve(w.tracker, ctx.node.start.text)
    case Err(e) => Run(w, Some(e))
    case Ok(res) =>
      var errors := if defined(variable) then w.errors else w.errors + [NotDefined(variable, res.position)];
      Iterate(Walk(res.tracker, errors, w.usages + [Usage(Upper(variable), res.position)]),
              variable, res.position, ctx.qualifiedInData, contains)
  }

  /** The upper-cased names of the qualifiers, in order */
  function QualifierNames(nodes: seq<QualifiedInData>): (r: seq<string>)
    ensures |r| == |nodes|
    ensures forall i :: 0 <= i < |nodes| ==> r[i] == Upper(GetDataName2Context(nodes[i]).text)
  {
    seq(|nodes|, i requires 0 <= i < |nodes| => Upper(GetDataName2Context(nodes[i]).text))
  }

  function UsageNames(usages: seq<Usage>): (r: seq<string>)
    ensures |r| == |usages|
    ensures forall i :: 0 <= i < |usages| ==> r[i] == usages[i].name
  {
    seq(|usages|, i requires 0 <= i < |usages| => usages[i].name)
  }

  /**
   * The names reported along a qualifier chain: walking from `variable` through `parents`, each
   * parent that does not contain the name before it has that name reported.
   */
  function UndefinedLinks(variable: string, parents: seq<string>,
                          contains: (string, string) -> bool): seq<string>
    decreases |parents|
  {
    if parents == [] then []
    else (if contains(parents[0], variable) then [] else [variable])
         + UndefinedLinks(parents[0], parents[1..], contains)
  }

  /** One "invalid definition" diagnostic per name, all at `position` */
  function NotDefinedAll(names: seq<string>, position: Option<Position>): (r: seq<SyntaxError>)
    ensures |r| == |names|
    ensures forall i :: 0 <= i < |names| ==> r[i] == NotDefined(names[i], position)
  {
    seq(|names|, i requires 0 <= i < |names| => NotDefined(names[i], position))
  }

  /** A walk whose current scope can always be resolved in: no level, or a mapped top level */
  predicate Resolvable(t: Tracker)
  {
    WellFormed(t) && (t.stack == [] || t.stack[0].name in t.mapping)
  }

  /** Retrieval never throws in a resolvable state and keeps it resolvable */
  lemma RetrieveResolvable(t: Tracker, text: string)
    requires Resolvable(t)
    ensures Retrieve(t, text).Ok? && Resolvable(Retrieve(t, text).value.tracker)
  {
    RetrieveWellFormed(t, text);
    RetrieveLeavesLowerLevels(t, text);
  }

  /**
   * A qualifier chain walked without an exception registers one usage per qualifier, named after
   * it, in the order of the chain.
   */
  lemma {:induction false} IterateUsages(w: Walk, variable: string, variablePosition: Option<Position>,
                                         nodes: seq<QualifiedInData>, contains: (string, string) -> bool)
    requires Iterate(w, variable, variablePosition, nodes, contains).thrown.None?
    ensures UsageNames(Iterate(w, variable, variablePosition, nodes, contains).walk.usages)
            == UsageNames(w.usages) + QualifierNames(nodes)
    decreases |nodes|
  {
    if nodes != [] {
      var context := GetDataName2Context(nodes[0]);
      var parent := Upper(context.text);
      var errors := if contains(parent, variable) then w.errors
                    else w.errors + [NotDefined(variable, variablePosition)];
      var res := Retrieve(w.tracker, context.start.text).value;
      var w' := Walk(res.tracker, errors, w.usages + [Usage(Upper(parent), res.position)]);
      IterateUsages(w', parent, variablePosition, nodes[1..], contains);
      UpperIdempotent(context.text);
      assert UsageNames(w'.usages) == UsageNames(w.usages) + [parent];
      QualifierNamesCons(nodes);
    }
  }

  /**
   * Every diagnostic the chain adds is an info-level "invalid definition" located at the
   * position of the referenced name, never at a qualifier's, and the list only grows.
   */
  lemma {:induction false} IterateDiagnosticsAtName(w: Walk, variable: string, variablePosition: Option<Position>,
                                                    nodes: seq<QualifiedInData>, contains: (string, string) -> bool)
    ensures var r := Iterate(w, variable, variablePosition, nodes, contains);
            && |w.errors| <= |r.walk.errors|
            && r.walk.errors[..|w.errors|] == w.errors
            && (forall k :: |w.errors| <= k < |r.walk.errors| ==>
                  r.walk.errors[k].severity == INFO_LEVEL && r.walk.errors[k].position == variablePosition)
    decreases |nodes|
  {
    if nodes != [] {
      var context := GetDataName2Context(nodes[0]);
      var parent := Upper(context.text);
      var errors := if contains(parent, variable) then w.errors
                    else w.errors + [NotDefined(variable, variablePosition)];
      match Retrieve(w.tracker, context.start.text)
      case Err(e) =>
      case Ok(res) =>
        var w' := Walk(res.tracker, errors, w.usages + [Usage(Upper(parent), res.position)]);
        IterateDiagnosticsAtName(w', parent, variablePosition, nodes[1..], contains);
        var r := Iterate(w', parent, variablePosition, nodes[1..], contains);
        assert r == Iterate(w, variable, variablePosition, nodes, contains);
        assert r.walk.errors[..|w.errors|] == errors[..|w.errors|];
    }
  }

  /** A chain walked to its end adds one diagnostic per link whose parent does not contain the
      name before it, naming that name */
  lemma {:induction false} IterateDiagnostics(w: Walk, variable: string, variablePosition: Option<Position>,
                                              nodes: seq<QualifiedInData>, contains: (string, string) -> bool)
    requires Iterate(w, variable, variablePosition, nodes, contains).thrown.None?
    ensures Iterate(w, variable, variablePosition, nodes, contains).walk.errors
            == w.errors + NotDefinedAll(UndefinedLinks(variable, QualifierNames(nodes), contains), variablePosition)
    decreases |nodes|
  {
    if nodes != [] {
      var context := GetDataName2Context(nodes[0]);
      var parent := Upper(context.text);
      var errors := if contains(parent, variable) then w.errors
                    else w.errors + [NotDefined(variable, variablePosition)];
      var res := Retrieve(w.tracker, context.start.text).value;
      var w' := Walk(res.tracker, errors, w.usages + [Usage(Upper(parent), res.position)]);
      assert Iterate(w, variable, variablePosition, nodes, contains)
             == Iterate(w', parent, variablePosition, nodes[1..], contains);
      IterateDiagnostics(w', parent, variablePosition, nodes[1..], contains);
      var links := UndefinedLinks(parent, QualifierNames(nodes[1..]), contains);
      QualifierNamesCons(nodes);
      assert UndefinedLinks(variable, QualifierNames(nodes), contains)
             == (if contains(parent, variable) then [] else [variable]) + links;
      NotDefinedAllStep(w.errors, variable, contains(parent, variable), links, variablePosition);
    }
  }

  /** One link's diagnostic, if any, followed by the rest of the chain's */
  lemma NotDefinedAllStep(base: seq<SyntaxError>, variable: string, contained: bool,
                          links: seq<string>, position: Option<Position>)
    ensures (if contained then base else base + [NotDefined(variable, position)]) + NotDefinedAll(links, position)
            == base + NotDefinedAll((if contained then [] else [variable]) + links, position)
  {
  }

  lemma QualifierNamesCons(nodes: seq<QualifiedInData>)
    requires nodes != []
    ensures QualifierNames(nodes) == [Upper(GetDataName2Context(nodes[0]).text)] + QualifierNames(nodes[1..])
  {
  }

  /** In a resolvable scope the chain is walked to its end: the loop never stops early */
  lemma {:induction false} IterateCompletes(w: Walk, variable: string, variablePosition: Option<Position>,
                                            nodes: seq<QualifiedInData>, contains: (string, string) -> bool)
    requires Resolvable(w.tracker)
    ensures Iterate(w, variable, variablePosition, nodes, contains).thrown.None?
    decreases |nodes|
  {
    if nodes != [] {
      var context := GetDataName2Context(nodes[0]);
      RetrieveResolvable(w.tracker, context.start.text);
      var parent := Upper(context.text);
      var errors := if contains(parent, variable) then w.errors
                    else w.errors + [NotDefined(variable, variablePosition)];
      var res := Retrieve(w.tracker, context.start.text).value;
      IterateCompletes(Walk(res.tracker, errors, w.usages + [Usage(Upper(parent), res.position)]),
                       parent, variablePosition, nodes[1..], contains);
    }
  }

  /**
   * `X OF Q1 OF ... OF Qn` in a resolvable scope: no exception, n + 1 usages named X, Q1, ..., Qn
   * in that order, and the diagnostics are one for an undefined X plus one per broken link, all at
   * the position resolved for X.
   */
  lemma CheckForVariableSummary(w: Walk, variable: string, ctx: QualifiedDataName,
                                defined: string -> bool, contains: (string, string) -> bool)
    requires Resolvable(w.tracker) && variable == Upper(variable)
    ensures var r := CheckForVariableSpec(w, variable, ctx, defined, contains);
            var position := Retrieve(w.tracker, ctx.node.start.text).value.position;
            && r.thrown.None?
            && UsageNames(r.walk.usages) == UsageNames(w.usages) + [variable] + QualifierNames(ctx.qualifiedInData)
            && r.walk.errors
               == w.errors + (if defined(variable) then [] else [NotDefined(variable, position)])
                  + NotDefinedAll(UndefinedLinks(variable, QualifierNames(ctx.qualifiedInData), contains), position)
  {
    RetrieveResolvable(w.tracker, ctx.node.start.text);
    var res := Retrieve(w.tracker, ctx.node.start.text).value;
    var errors := if defined(variable) then w.errors else w.errors + [NotDefined(variable, res.position)];
    var w' := Walk(res.tracker, errors, w.usages + [Usage(Upper(variable), res.position)]);
    IterateCompletes(w', variable, res.position, ctx.qualifiedInData, contains);
    IterateUsages(w', variable, res.position, ctx.qualifiedInData, contains);
    IterateDiagnostics(w', variable, res.position, ctx.qualifiedInData, contains);
    assert UsageNames(w'.usages) == UsageNames(w.usages) + [variable];
  }

  // ---------------------------------------------------------------------------------------------
  // The visitor
  // ---------------------------------------------------------------------------------------------

  class CobolVisitor {
    const documentUri: string
    /** The token mapping of the extended document, whose entries the fallback search reverses */
    var tokenMapping: map<string, seq<Position>>
    /** Top at index 0 */
    var documentHierarchyStack: seq<HierarchyLevel>
    var errors: seq<SyntaxError>
    /** The usages registered with the variables of the semantic context */
    var variableUsages: seq<Usage>

    function State(): Tracker
      reads this
    {
      Tracker(documentHierarchyStack, tokenMapping)
    }

    function CurrentWalk(): Walk
      reads this
    {
      Walk(State(), errors, variableUsages)
    }

    predicate Valid()
      reads this
    {
      WellFormed(State())
    }

    /** One level for the document, seeded with a copy of its mapping entry */
    constructor (documentUri: string, tokenMapping: map<string, seq<Position>>)
      requires documentUri in tokenMapping
      ensures Valid()
      ensures this.documentUri == documentUri
      ensures State() == Initial(documentUri, tokenMapping)
      ensures errors == [] && variableUsages == []
    {
      this.documentUri := documentUri;
      this.tokenMapping := tokenMapping;
      documentHierarchyStack := [HierarchyLevel(documentUri, tokenMapping[documentUri])];
      errors := [];
      variableUsages := [];
    }

    /** visitEnterCpy and visitDataDescriptionEntryCpy: push a level for the copybook */
    method EnterCpy(cpyName: string)
      requires Valid()
      modifies this
      ensures Valid()
      ensures State() == Enter(old(State()), cpyName)
      ensures errors == old(errors) && variableUsages == old(variableUsages)
    {
      var positions := if cpyName in tokenMapping then tokenMapping[cpyName] else [];
      documentHierarchyStack := [HierarchyLevel(cpyName, positions)] + documentHierarchyStack;
      EnterWellFormed(old(State()), cpyName);
    }

    /** visitExitCpy and visitDataDescriptionExitCpy: pop the top level */
    method MoveToPreviousLevel() returns (thrown: Option<Failure>)
      requires Valid()
      modifies this
      ensures Valid()
      ensures match Exit(old(State()))
              case Err(e) => thrown == Some(e) && State() == old(State())
              case Ok(t) => thrown.None? && State() == t
      ensures errors == old(errors) && variableUsages == old(variableUsages)
    {
      if documentHierarchyStack == [] {
        return Some(NoSuchElementException);
      }
      documentHierarchyStack := documentHierarchyStack[1..];
      ExitWellFormed(old(State()));
      thrown := None;
    }

    /** retrievePosition for a node whose start token has text `startText` */
    method RetrievePosition(startText: string) returns (r: Result<Option<Position>, Failure>)
      requires Valid()
      modifies this
      ensures Valid()
      ensures match Retrieve(old(State()), startText)
              case Err(e) => r == Err(e) && State() == old(State())
              case Ok(res) => r == Ok(res.position) && State() == res.tracker
      ensures errors == old(errors) && variableUsages == old(variableUsages)
    {
      RetrieveWellFormed(State(), startText);
      if documentHierarchyStack == [] {
        return Ok(None);
      }
      var currentDocument := documentHierarchyStack[0];
      var positions := currentDocument.positions;
      var position := FindFirst(positions, startText);
      var index := IndexOf(positions, position);
      IndexOfFirstMatch(positions, startText);
      if index == -1 {
        if currentDocument.name !in tokenMapping {
          return Err(NullPointerException);
        }
        var initialPositions := tokenMapping[currentDocument.name];
        var lenOfTail := |initialPositions| - |positions|;
        if lenOfTail < 0 {
          return Err(IllegalArgumentException);
        }
        var subList := Reverse(initialPositions[..lenOfTail]);
        tokenMapping := tokenMapping[currentDocument.name := subList + initialPositions[lenOfTail..]];
        position := FindFirst(subList, startText);
      } else {
        documentHierarchyStack :=
          [currentDocument.(positions := positions[index + 1..])] + documentHierarchyStack[1..];
      }
      r := Ok(position);
    }

    /** reportVariableNotDefined */
    method ReportVariableNotDefined(variable: string, position: Option<Position>)
      modifies this
      ensures errors == old(errors) + [NotDefined(variable, position)]
      ensures State() == old(State()) && variableUsages == old(variableUsages)
    {
      errors := errors + [NotDefined(variable, position)];
    }

    /** addUsage on the variables of the semantic context, under the upper-cased name */
    method AddUsage(name: string, position: Option<Position>)
      modifies this
      ensures variableUsages == old(variableUsages) + [Usage(Upper(name), position)]
      ensures State() == old(State()) && errors == old(errors)
    {
      variableUsages := variableUsages + [Usage(Upper(name), position)];
    }

    /** checkVariableStructure: report `child` unless `parent` contains it */
    method CheckVariableStructure(parent: string, child: string, position: Option<Position>,
                                  contains: (string, string) -> bool)
      modifies this
      ensures errors == if contains(parent, child) then old(errors)
                        else old(errors) + [NotDefined(child, position)]
      ensures State() == old(State()) && variableUsages == old(variableUsages)
    {
      if !contains(parent, child) {
        ReportVariableNotDefined(child, position);
      }
    }

    /** iterateOverQualifiedDataNames: the for-loop over the qualifiers of `ctx` */
    method IterateOverQualifiedDataNames(ctx: QualifiedDataName, name: string,
                                         variablePosition: Option<Position>,
                                         contains: (string, string) -> bool)
      returns (thrown: Option<Failure>)
      requires Valid()
      modifies this
      ensures Valid()
      ensures Run(CurrentWalk(), thrown)
              == Iterate(old(CurrentWalk()), name, variablePosition, ctx.qualifiedInData, contains)
    {
      var nodes := ctx.qualifiedInData;
      var variable := name;
      var k := 0;
      while k < |nodes|
        invariant 0 <= k <= |nodes|
        invariant Valid()
        invariant Iterate(CurrentWalk(), variable, variablePosition, nodes[k..], contains)
                  == Iterate(old(CurrentWalk()), name, variablePosition, nodes, contains)
      {
        ghost var before := CurrentWalk();
        var context := GetDataName2Context(nodes[k]);
        var parent := Upper(context.text);
        CheckVariableStructure(parent, variable, variablePosition, contains);
        var parentPosition := RetrievePosition(context.start.text);
        if parentPosition.Err? {
          return Some(parentPosition.error);
        }
        variable := parent;
        AddUsage(variable, parentPosition.value);
        assert nodes[k..][1..] == nodes[k + 1..];
        k := k + 1;
      }
      thrown := None;
    }

    /** checkForVariable for the upper-cased data name `variable` of `ctx` */
    method CheckForVariable(variable: string, ctx: QualifiedDataName,
                            defined: string -> bool, contains: (string, string) -> bool)
      returns (thrown: Option<Failure>)
      requires Valid()
      modifies this
      ensures Valid()
      ensures Run(CurrentWalk(), thrown)
              == CheckForVariableSpec(old(CurrentWalk()), variable, ctx, defined, contains)
    {
      var variablePosition := RetrievePosition(ctx.node.start.text);
      if variablePosition.Err? {
        return Some(variablePosition.error);
      }
      if !defined(variable) {
        ReportVariableNotDefined(variable, variablePosition.value);
      }
      AddUsage(variable, variablePosition.value);
      thrown := IterateOverQualifiedDataNames(ctx, variable, variablePosition.value, contains);
    }

    /** visitQualifiedDataNameFormat1: check the upper-cased data name, when there is one */
    method VisitQualifiedDataNameFormat1(ctx: QualifiedDataName,
                                         defined: string -> bool, contains: (string, string) -> bool)
      returns (thrown: Option<Failure>)
      requires Valid()
      modifies this
      ensures Valid()
      ensures ctx.dataName.None? ==> thrown.None? && CurrentWalk() == old(CurrentWalk())
      ensures ctx.dataName.Some? ==>
                Run(CurrentWalk(), thrown)
                == CheckForVariableSpec(old(CurrentWalk()), Upper(ctx.dataName.value.text), ctx, defined, contains)
    {
      thrown := None;
      if ctx.dataName.Some? {
        thrown := CheckForVariable(Upper(ctx.dataName.value.text), ctx, defined, contains);
      }
    }

    /** getSemanticError */
    method GetSemanticError(wrongToken: string, startLine: int, charPositionInLine: int,
                            correctWord: string)
      modifies this
      ensures errors == old(errors) + [MisspelledKeyword(documentUri, wrongToken, startLine,
                                                         charPositionInLine, correctWord)]
      ensures State() == old(State()) && variableUsages == old(variableUsages)
    {
      errors := errors + [MisspelledKeyword(documentUri, wrongToken, startLine, charPositionInLine,
                                            correctWord)];
    }

    /** throwWarning: a warning when the distance computation proposes a keyword */
    method ThrowWarning(wrongToken: string, startLine: int, charPositionInLine: int,
                        closestKeyword: string -> Option<string>)
      modifies this
      ensures errors == old(errors)
                        + OptionToSeq(Warning(closestKeyword, documentUri, wrongToken, startLine,
                                              charPositionInLine))
      ensures State() == old(State()) && variableUsages == old(variableUsages)
    {
      var correctWord := closestKeyword(Upper(wrongToken));
      if correctWord.Some? {
        GetSemanticError(wrongToken, startLine, charPositionInLine, correctWord.value);
      }
    }

    /**
     * visitProcedureSection, visitStatement, visitIfThen, visitIfElse, visitPerformInlineStatement,
     * visitSentence, visitIdentifier, visitEvaluateWhenOther: check the node's start token
     */
    method VisitMisspellingCandidate(start: Token, closestKeyword: string -> Option<string>)
      modifies this
      ensures errors == old(errors)
                        + OptionToSeq(Warning(closestKeyword, documentUri, start.text, start.line,
                                              start.charPositionInLine))
      ensures State() == old(State()) && variableUsages == old(variableUsages)
    {
      ThrowWarning(start.text, start.line, start.charPositionInLine, closestKeyword);
    }
  }

  // ---------------------------------------------------------------------------------------------
  // Example: MOVE 1 TO X OF Y OF Z
  // ---------------------------------------------------------------------------------------------

  /**
   * With X undefined, Y not containing X and Z containing Y: usages X, Y, Z in that order and two
   * diagnostics, "X" for the undefined name and "X" again for the broken link Y -> X, both at X.
   */
  lemma QualifiedReferenceExample(w: Walk, ctx: QualifiedDataName,
                                  defined: string -> bool, contains: (string, string) -> bool)
    requires Resolvable(w.tracker)
    requires ctx.qualifiedInData == [InData(Node("y", Token("y", 1, 20))), InData(Node("Z", Token("Z", 1, 25)))]
    requires !defined("X") && !contains("Y", "X") && contains("Z", "Y")
    ensures var r := CheckForVariableSpec(w, "X", ctx, defined, contains);
            var position := Retrieve(w.tracker, ctx.node.start.text).value.position;
            && r.thrown.None?
            && UsageNames(r.walk.usages) == UsageNames(w.usages) + ["X", "Y", "Z"]
            && r.walk.errors == w.errors + [NotDefined("X", position), NotDefined("X", position)]
  {
    assert Upper("X") == "X";
    assert Upper("y") == "Y";
    assert Upper("Z") == "Z";
    CheckForVariableSummary(w, "X", ctx, defined, contains);
    assert QualifierNames(ctx.qualifiedInData) == ["Y", "Z"];
    assert UndefinedLinks("X", ["Y", "Z"], contains) == ["X"] by {
      assert UndefinedLinks("Z", [], contains) == [];
      assert UndefinedLinks("Y", ["Z"], contains) == [];
    }
  }
}
