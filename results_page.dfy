/** The helpers of the results page (Frontend/Plan2Code/src/pages/results-page.tsx):
    heading slugs, the markdown-to-PDF content mapping, editing the suggested tickets,
    the refinement guard and the message shown after pushing tickets to Jira. The
    network, `marked` and pdfMake are outside the model: their results are inputs. */
module ResultsPage {
  import opened Outcomes
  import opened Json
  import opened Strings
  import opened Api

  // ------------------------------------------------------------------ slugify

  /** The `children` slugify is given: a string, an array (whose elements are already
      rendered as strings), or anything else, given by what String() makes of it. */
  datatype Children = Str(s: string) | Parts(parts: seq<string>) | Other(shown: string)

  /** The text slugify starts from: an array is joined with "". */
  function ChildText(c: Children): string {
    match c
    case Str(s) => s
    case Parts(ps) => Join(ps, "")
    case Other(shown) => shown
  }

  /** The class `[\w-]`. */
  predicate IsWordOrDash(c: char) {
    ('a' <= c <= 'z') || ('A' <= c <= 'Z') || ('0' <= c <= '9') || c == '_' || c == '-'
  }

  /** What a slug is made of: lowercase letters, digits, `_` and `-`. */
  predicate IsSlugChar(c: char) {
    ('a' <= c <= 'z') || ('0' <= c <= '9') || c == '_' || c == '-'
  }

  predicate NoUpper(s: string) {
    forall i :: 0 <= i < |s| ==> !('A' <= s[i] <= 'Z')
  }

  /** `replace(/\s+/g, "-")`: each maximal run of whitespace becomes one dash. */
  function Dashed(s: string): (r: string)
    decreases |s|
  {
    if s == [] then []
    else if IsJsSpace(s[0]) then "-" + Dashed(DropWhile(s[1..], IsJsSpace))
    else [s[0]] + Dashed(s[1..])
  }

  /** `replace(/[^\w-]/g, "")`: every other character is deleted. */
  function Keep(s: string): (r: string)
    ensures |r| <= |s|
    ensures forall i :: 0 <= i < |r| ==> IsWordOrDash(r[i])
  {
    if s == [] then []
    else if IsWordOrDash(s[0]) then [s[0]] + Keep(s[1..])
    else Keep(s[1..])
  }

  /** One character is kept exactly when it is a word character or a dash. */
  lemma KeepOne(c: char)
    ensures Keep([c]) == if IsWordOrDash(c) then [c] else []
  {
    assert [c][1..] == [];
  }

  /** Deleting works character by character: the kept part of two texts is the kept part
      of the first followed by that of the second. With KeepOne, every word character and
      dash survives, in order. */
  lemma {:induction false} KeepAppend(a: string, b: string)
    ensures Keep(a + b) == Keep(a) + Keep(b)
    decreases |a|
  {
    if a == [] {
      assert a + b == b;
    } else {
      assert (a + b)[0] == a[0];
      assert (a + b)[1..] == a[1..] + b;
      KeepAppend(a[1..], b);
    }
  }

  /** slugify (lines 380-390). */
  function Slugify(children: Children): string {
    Slug(ChildText(children))
  }

  /** The three steps slugify applies to its text. */
  function Slug(text: string): string {
    Keep(Dashed(Lower(text)))
  }

  /** A character followed by more text: it stays when it is not whitespace. */
  lemma DashedCons(c: char, s: string)
    requires !IsJsSpace(c)
    ensures Dashed([c] + s) == [c] + Dashed(s)
  {
    assert ([c] + s)[1..] == s;
  }

  /** A nonempty run of whitespace followed by text that does not start with whitespace
      becomes a single dash. */
  lemma DashedRun(w: string, b: string)
    requires w != [] && All(w, IsJsSpace)
    requires b == [] || !IsJsSpace(b[0])
    ensures Dashed(w + b) == "-" + Dashed(b)
  {
    assert (w + b)[0] == w[0];
    assert (w + b)[1..] == w[1..] + b;
    DropWhileRun(w[1..], b, IsJsSpace);
  }

  /** A suffix of a text without uppercase letters has none either. */
  lemma NoUpperSuffix(s: string, k: nat)
    requires NoUpper(s) && k <= |s|
    ensures NoUpper(s[k..])
  {
    forall i | 0 <= i < |s| - k ensures !('A' <= s[k..][i] <= 'Z') {
      assert s[k..][i] == s[k + i];
    }
  }

  /** Joining two texts without uppercase letters gives one without. */
  lemma NoUpperConcat(a: string, b: string)
    requires NoUpper(a) && NoUpper(b)
    ensures NoUpper(a + b)
  {
    forall i | 0 <= i < |a + b| ensures !('A' <= (a + b)[i] <= 'Z') {
      if i < |a| { assert (a + b)[i] == a[i]; } else { assert (a + b)[i] == b[i - |a|]; }
    }
  }

  /** Dashing adds nothing but dashes, so it brings in no uppercase letter. */
  lemma {:induction false} DashedNoUpper(s: string)
    requires NoUpper(s)
    ensures NoUpper(Dashed(s))
    decreases |s|
  {
    if s != [] {
      NoUpperSuffix(s, 1);
      var tail := s[1..];
      if IsJsSpace(s[0]) {
        var rest := DropWhile(tail, IsJsSpace);
        assert rest == tail[|tail| - |rest|..];
        NoUpperSuffix(tail, |tail| - |rest|);
        DashedNoUpper(rest);
        assert Dashed(s) == "-" + Dashed(rest);
        NoUpperConcat("-", Dashed(rest));
      } else {
        DashedNoUpper(tail);
        assert Dashed(s) == [s[0]] + Dashed(tail);
        NoUpperConcat([s[0]], Dashed(tail));
      }
    }
  }

  /** Text without whitespace is left as it is by the dashing step. */
  lemma {:induction false} DashedNoSpace(s: string)
    requires forall i :: 0 <= i < |s| ==> !IsJsSpace(s[i])
    ensures Dashed(s) == s
  {
    if s != [] {
      DashedNoSpace(s[1..]);
      assert s == [s[0]] + s[1..];
    }
  }

  /** Text of kept characters only is left as it is by the deleting step. */
  lemma {:induction false} KeepAll(s: string)
    requires forall i :: 0 <= i < |s| ==> IsWordOrDash(s[i])
    ensures Keep(s) == s
  {
    if s != [] {
      KeepAll(s[1..]);
      assert s == [s[0]] + s[1..];
    }
  }

  /** For any text, the slug holds only lowercase letters, digits, `_` and `-`, so in
      particular no whitespace. */
  lemma SlugAlphabet(text: string)
    ensures forall i :: 0 <= i < |Slug(text)| ==> IsSlugChar(Slug(text)[i]) && !IsJsSpace(Slug(text)[i])
  {
    var low := Lower(text);
    assert NoUpper(low);
    DashedNoUpper(low);
    KeepNoUpper(Dashed(low));
  }

  /** Deleting characters brings in no uppercase letter. */
  lemma {:induction false} KeepNoUpper(s: string)
    requires NoUpper(s)
    ensures NoUpper(Keep(s))
  {
    if s != [] {
      NoUpperSuffix(s, 1);
      KeepNoUpper(s[1..]);
      if IsWordOrDash(s[0]) {
        NoUpperConcat([s[0]], Keep(s[1..]));
      }
    }
  }

  /** slugify is idempotent on strings. */
  lemma SlugifyIdempotent(text: string)
    ensures Slugify(Str(Slugify(Str(text)))) == Slugify(Str(text))
  {
    var u := Slug(text);
    SlugAlphabet(text);
    assert Lower(u) == u;
    DashedNoSpace(u);
    KeepAll(u);
  }

  /** The children of an array are joined with nothing between them. */
  lemma SlugifyParts(parts: seq<string>)
    ensures Slugify(Parts(parts)) == Slug(Join(parts, ""))
  {
  }

  /** "a ! b" becomes "a--b": the spaces turn into dashes before the "!" is deleted. */
  lemma SlugifyExample()
    ensures Slugify(Str("a ! b")) == "a--b"
  {
    ExampleLower();
    ExampleDashed();
    ExampleKeep();
  }

  lemma ExampleLower()
    ensures Lower("a ! b") == "a ! b"
  {
  }

  lemma ExampleDashed()
    ensures Dashed("a ! b") == "a-!-b"
  {
    assert "a ! b" == ['a', ' ', '!', ' ', 'b'];
    DashedSpaced('a', '!', 'b');
  }

  /** Three characters that are not whitespace, separated by single spaces. */
  lemma DashedSpaced(x: char, y: char, z: char)
    requires !IsJsSpace(x) && !IsJsSpace(y) && !IsJsSpace(z)
    ensures Dashed([x, ' ', y, ' ', z]) == [x, '-', y, '-', z]
  {
    DashedSpacedTail(y, z);
    DashedCons(x, [' ', y, ' ', z]);
    assert [x, ' ', y, ' ', z] == [x] + [' ', y, ' ', z];
  }

  lemma DashedSpacedTail(y: char, z: char)
    requires !IsJsSpace(y) && !IsJsSpace(z)
    ensures Dashed([' ', y, ' ', z]) == ['-', y, '-', z]
  {
    DashedSpacedLast(z);
    DashedCons(y, [' ', z]);
    assert [y, ' ', z] == [y] + [' ', z];
    DashedRun([' '], [y, ' ', z]);
    assert [' ', y, ' ', z] == [' '] + [y, ' ', z];
  }

  lemma DashedSpacedLast(z: char)
    requires !IsJsSpace(z)
    ensures Dashed([' ', z]) == ['-', z]
  {
    DashedCons(z, []);
    assert [z] == [z] + [];
    DashedRun([' '], [z]);
    assert [' ', z] == [' '] + [z];
  }

  lemma ExampleKeep()
    ensures Keep("a-!-b") == "a--b"
  {
    assert "a-!-b"[1..] == "-!-b";
    assert "-!-b"[1..] == "!-b";
    assert "!-b"[1..] == "-b";
    assert "-b"[1..] == "b";
  }

  // ------------------------------------------------------------------ PDF content

  /** The nodes `marked` produces: elements with their upper-case nodeName, and text. */
  datatype Node = Element(name: string, children: seq<Node>) | TextNode(data: string)

  /** One entry of pdfMake's `content`: a styled text block (PRE adds the Courier font) or
      a bulleted list of item texts. */
  datatype PdfItem =
    | Block(text: string, style: string, font: Option<string>)
    | BulletList(ul: seq<string>, style: string)

  const H1: string := "H1"
  const H2: string := "H2"
  const H3: string := "H3"
  const P: string := "P"
  const Pre: string := "PRE"
  const Ul: string := "UL"
  const Li: string := "LI"

  /** `node.textContent`: the text of every descendant text node, in order. */
  function TextContent(n: Node): string
    decreases n, 1
  {
    match n
    case TextNode(d) => d
    case Element(_, cs) => TextOf(cs)
  }

  function TextOf(cs: seq<Node>): string
    decreases cs, 0
  {
    if cs == [] then "" else TextContent(cs[0]) + TextOf(cs[1..])
  }

  /** The texts of `querySelectorAll("li")` below the given nodes: every LI descendant,
      in document order (an LI comes before the LIs nested in it). */
  function ListItems(cs: seq<Node>): seq<string>
    decreases cs
  {
    if cs == [] then []
    else
      var here := if cs[0].Element? && cs[0].name == Li then [TextContent(cs[0])] else [];
      var below := if cs[0].Element? then ListItems(cs[0].children) else [];
      here + below + ListItems(cs[1..])
  }

  /** What one top-level node adds to the content: an entry for H1, H2, H3, P, PRE and UL,
      nothing for any other node. */
  function Entry(n: Node): seq<PdfItem> {
    if n.TextNode? then []
    else if n.name == H1 then [Block(TextContent(n), "header1", None)]
    else if n.name == H2 then [Block(TextContent(n), "header2", None)]
    else if n.name == H3 then [Block(TextContent(n), "header3", None)]
    else if n.name == P then [Block(TextContent(n), "paragraph", None)]
    else if n.name == Pre then [Block(TextContent(n), "codeBlock", Some("Courier"))]
    else if n.name == Ul then [BulletList(ListItems(n.children), "list")]
    else []
  }

  /** The content of the whole document: the entries of its nodes, in order. */
  function Content(nodes: seq<Node>): seq<PdfItem> {
    if nodes == [] then []
    else Content(nodes[..|nodes| - 1]) + Entry(nodes[|nodes| - 1])
  }

  /** Each of the six known tags yields exactly one entry with its style; every other node
      yields none. */
  lemma EntryStyles(n: Node)
    ensures n.Element? && n.name in {H1, H2, H3, P, Pre, Ul} ==> |Entry(n)| == 1
    ensures !(n.Element? && n.name in {H1, H2, H3, P, Pre, Ul}) ==> Entry(n) == []
    ensures n.Element? && n.name == Pre ==> Entry(n) == [Block(TextContent(n), "codeBlock", Some("Courier"))]
    ensures n.Element? && n.name == Ul ==> Entry(n) == [BulletList(ListItems(n.children), "list")]
  {
  }

  /** The content is never longer than the node list. */
  lemma {:induction false} ContentLength(nodes: seq<Node>)
    ensures |Content(nodes)| <= |nodes|
  {
    if nodes != [] {
      ContentLength(nodes[..|nodes| - 1]);
    }
  }

  /** The nodes are handled in order: the content of two runs of nodes is the content of
      the first followed by that of the second. */
  lemma {:induction false} ContentAppend(a: seq<Node>, b: seq<Node>)
    ensures Content(a + b) == Content(a) + Content(b)
    decreases |b|
  {
    if b == [] {
      assert a + b == a;
    } else {
      var init, last := b[..|b| - 1], b[|b| - 1];
      NodesSplitLast(a, b);
      ContentSnoc(a + init, last);
      ContentSnoc(init, last);
      ContentAppend(a, init);
      ItemsAssoc(Content(a), Content(init), Entry(last));
    }
  }

  /** A non-empty second run ends with its last node. */
  lemma NodesSplitLast(a: seq<Node>, b: seq<Node>)
    requires b != []
    ensures b == b[..|b| - 1] + [b[|b| - 1]]
    ensures a + b == (a + b[..|b| - 1]) + [b[|b| - 1]]
  {
  }

  lemma ItemsAssoc(x: seq<PdfItem>, y: seq<PdfItem>, z: seq<PdfItem>)
    ensures x + y + z == x + (y + z)
  {
  }

  /** One more node adds its entry at the end. */
  lemma ContentSnoc(nodes: seq<Node>, n: Node)
    ensures Content(nodes + [n]) == Content(nodes) + Entry(n)
  {
    assert (nodes + [n])[..|nodes|] == nodes;
  }

  /** The forEach of handleDownloadStyledPdf (lines 162-185), pushing onto `content`. */
  method PdfContent(nodes: seq<Node>) returns (content: seq<PdfItem>)
    ensures content == Content(nodes)
  {
    content := [];
    for i := 0 to |nodes|
      invariant content == Content(nodes[..i])
    {
      var node := nodes[i];
      if node.Element? && node.name == H1 {
        content := content + [Block(TextContent(node), "header1", None)];
      } else if node.Element? && node.name == H2 {
        content := content + [Block(TextContent(node), "header2", None)];
      } else if node.Element? && node.name == H3 {
        content := content + [Block(TextContent(node), "header3", None)];
      } else if node.Element? && node.name == P {
        content := content + [Block(TextContent(node), "paragraph", None)];
      } else if node.Element? && node.name == Pre {
        content := content + [Block(TextContent(node), "codeBlock", Some("Courier"))];
      } else if node.Element? && node.name == Ul {
        var items := ListItems(node.children);
        content := content + [BulletList(items, "list")];
      }
      assert nodes[..i + 1][..i] == nodes[..i];
    }
    assert nodes[..|nodes|] == nodes;
  }

  // ------------------------------------------------------------------ push results

  /** JavaScript truthiness of a JSON value: unlike Python, an empty array or object is true. */
  predicate JsTruthy(v: Json) {
    match v
    case JNull => false
    case JBool(b) => b
    case JNum(n) => n != 0
    case JStr(s) => s != ""
    case JArr(_) => true
    case JObj(_) => true
  }

  /** Reading a property: undefined (None) unless the value is an object holding the key. */
  function Prop(v: Json, key: string): Option<Json> {
    if v.JObj? && key in v.fields then Some(v.fields[key]) else None
  }

  /** A value interpolated in a template literal; `str` is String() of a non-string. */
  function Interp(o: Option<Json>, str: Json -> string): string {
    match o
    case None => "undefined"
    case Some(JStr(s)) => s
    case Some(v) => str(v)
  }

  const Tick: string := "✅ "
  const ViewOpen: string := " — [View]("
  const ViewClose: string := ")"

  /** The line for one result; None when reading its key throws (a null entry). */
  function Line(res: Json, str: Json -> string): Option<string> {
    if res.JNull? then None
    else
      var key := Prop(res, "key");
      if key.Some? && JsTruthy(key.value) then Some(Tick + Interp(key, str) + ViewOpen + Interp(Prop(res, "url"), str) + ViewClose)
      else Some(Interp(Prop(res, "error"), str))
  }

  /** The lines of all results; None as soon as one of them throws. */
  function Lines(items: seq<Json>, str: Json -> string): (r: Option<seq<string>>)
    ensures r.Some? <==> forall i :: 0 <= i < |items| ==> Line(items[i], str).Some?
    ensures r.Some? ==>
      |r.value| == |items| && forall i :: 0 <= i < |items| ==> Line(items[i], str) == Some(r.value[i])
  {
    if items == [] then Some([])
    else
      match Line(items[0], str)
      case None => None
      case Some(l) =>
        match Lines(items[1..], str)
        case None => None
        case Some(ls) => Some([l] + ls)
  }

  /** The message built from the push response (lines 140-145), reading the result list
      under `listKey`; None when building it throws: the body was not JSON (`data` is None),
      it was null, the list was truthy but not an array, or an entry was null. */
  function PushMessage(data: Option<Json>, listKey: string, str: Json -> string): Option<string> {
    match data
    case None => None
    case Some(d) =>
      if d.JNull? then None
      else
        var created := Prop(d, listKey);
        var list := if created.Some? && JsTruthy(created.value) then created.value else JArr([]);
        if !list.JArr? then None
        else
          match Lines(list.items, str)
          case None => None
          case Some(ls) => Some(Join(ls, "\n"))
  }

  /** The message as written: it reads `data.created`. */
  function PushMessageAsWritten(data: Option<Json>, str: Json -> string): Option<string> {
    PushMessage(data, "created", str)
  }

  /** The message as intended: it reads `created_issues`, the key the backend sends. */
  function PushMessageCorrected(data: Option<Json>, str: Json -> string): Option<string> {
    PushMessage(data, "created_issues", str)
  }

  /** The message shown when the request or the message itself fails. */
  const SubmitError: string := "Error submitting tickets."

  /** Whatever the backend's success body holds, the message as written is empty. */
  lemma AsWrittenShowsNothing(v: Json, str: Json -> string)
    ensures PushMessageAsWritten(Some(Single("created_issues", v)), str) == Some("")
  {
    var d := Single("created_issues", v);
    assert "created" !in d.fields;
    assert Prop(d, "created").None?;
  }

  /** The line a push result should become: a created issue shows its key and link, a
      failure its error. A created issue whose key is falsy shows its missing error. */
  function ResultLine(r: PushResult, str: Json -> string): string {
    match r
    case Created(_, _, k, u) => if JsTruthy(k) then Tick + Interp(Some(k), str) + ViewOpen + u + ViewClose else "undefined"
    case Failed(_, e) => e
  }

  function ResultLines(rs: seq<PushResult>, str: Json -> string): (ls: seq<string>)
    ensures |ls| == |rs| && forall i :: 0 <= i < |rs| ==> ls[i] == ResultLine(rs[i], str)
  {
    seq(|rs|, i requires 0 <= i < |rs| => ResultLine(rs[i], str))
  }

  /** One result rendered by the backend reads back as its line. */
  lemma LineOfResult(r: PushResult, str: Json -> string)
    ensures Line(ResultJson(r), str) == Some(ResultLine(r, str))
  {
    var j := ResultJson(r);
    match r
    case Created(s, d, k, u) =>
      assert Prop(j, "key") == Some(k);
      assert Prop(j, "url") == Some(JStr(u));
      assert !JsTruthy(k) ==> Prop(j, "error") == None;
    case Failed(s, e) =>
      assert Prop(j, "key") == None;
      assert Prop(j, "error") == Some(JStr(e));
  }

  /** Every result list the backend renders gives one line per result. */
  lemma {:induction false} LinesOfResults(rs: seq<PushResult>, str: Json -> string)
    ensures Lines(ResultsJson(rs), str) == Some(ResultLines(rs, str))
  {
    if rs != [] {
      var js := ResultsJson(rs);
      assert js[0] == ResultJson(rs[0]);
      assert js[1..] == ResultsJson(rs[1..]);
      LineOfResult(rs[0], str);
      LinesOfResults(rs[1..], str);
      assert ResultLines(rs, str) == [ResultLine(rs[0], str)] + ResultLines(rs[1..], str);
    }
  }

  /** Reading the key the backend sends, the message holds one line per pushed ticket,
      joined with newlines. */
  lemma CorrectedShowsResults(rs: seq<PushResult>, str: Json -> string)
    ensures PushMessageCorrected(Some(Single("created_issues", JArr(ResultsJson(rs)))), str)
         == Some(Join(ResultLines(rs, str), "\n"))
  {
    LinesOfResults(rs, str);
  }

  // ------------------------------------------------------------------ page state

  /** handleRefine's guard (line 84; the button's `disabled` on line 274 tests the feedback alone): there is a
      plan and the feedback is not blank. */
  predicate ShouldRefine(plan: string, feedback: string) {
    plan != "" && Trim(feedback) != ""
  }

  /** The guard holds exactly when there is a plan and the feedback has a character that
      is not whitespace. */
  lemma ShouldRefineExact(plan: string, feedback: string)
    ensures ShouldRefine(plan, feedback) <==> plan != "" && exists i :: 0 <= i < |feedback| && !IsJsSpace(feedback[i])
  {
    TrimNonBlank(feedback);
  }

  /** A suggested ticket; the editors change its fields in place. */
  class Ticket {
    var summary: string
    var description: string

    constructor (summary: string, description: string)
      ensures this.summary == summary && this.description == description
    {
      this.summary := summary;
      this.description := description;
    }
  }

  /** The state of ProjectPlanPage the modelled handlers touch. */
  class ProjectPlanPage {
    var projectMarkdown: string
    var feedback: string
    var suggestedTickets: seq<Ticket>
    var jiraResponse: string
    var showSuggestedTicketsModal: bool

    constructor (plan: string)
      ensures projectMarkdown == plan && feedback == "" && suggestedTickets == []
      ensures jiraResponse == "" && !showSuggestedTicketsModal
    {
      projectMarkdown := plan;
      feedback := "";
      suggestedTickets := [];
      jiraResponse := "";
      showSuggestedTicketsModal := false;
    }

    /** handleRefine: with no plan or blank feedback nothing happens; otherwise a refined
        plan replaces the plan and clears the feedback, and a failed request changes
        nothing. `refined` is the service's refined_plan, None when the request failed. */
    method HandleRefine(refined: Option<string>)
      modifies this
      ensures !ShouldRefine(old(projectMarkdown), old(feedback)) || refined.None? ==>
        projectMarkdown == old(projectMarkdown) && feedback == old(feedback)
      ensures ShouldRefine(old(projectMarkdown), old(feedback)) && refined.Some? ==>
        projectMarkdown == refined.value && feedback == ""
      ensures suggestedTickets == old(suggestedTickets) && jiraResponse == old(jiraResponse)
      ensures showSuggestedTicketsModal == old(showSuggestedTicketsModal)
    {
      if projectMarkdown == "" || Trim(feedback) == "" {
        return;
      }
      if refined.Some? {
        projectMarkdown := refined.value;
        feedback := "";
      }
    }

    /** The summary editor of ticket `index` (lines 338-341). The array is copied but its
        ticket objects are shared, so the assignment changes the ticket object itself:
        every entry that is that same object shows the new summary. */
    method EditSummary(index: nat, value: string)
      requires index < |suggestedTickets|
      modifies suggestedTickets[index], this
      ensures suggestedTickets == old(suggestedTickets)
      ensures suggestedTickets[index].summary == value
      ensures forall j :: 0 <= j < |suggestedTickets| && suggestedTickets[j] != suggestedTickets[index] ==>
        suggestedTickets[j].summary == old(suggestedTickets[j].summary)
      ensures forall j :: 0 <= j < |suggestedTickets| ==> suggestedTickets[j].description == old(suggestedTickets[j].description)
      ensures projectMarkdown == old(projectMarkdown) && feedback == old(feedback)
      ensures jiraResponse == old(jiraResponse) && showSuggestedTicketsModal == old(showSuggestedTicketsModal)
    {
      var updated := suggestedTickets;
      updated[index].summary := value;
      suggestedTickets := updated;
    }

    /** The description editor of ticket `index` (lines 351-354), the same way. */
    method EditDescription(index: nat, value: string)
      requires index < |suggestedTickets|
      modifies suggestedTickets[index], this
      ensures suggestedTickets == old(suggestedTickets)
      ensures suggestedTickets[index].description == value
      ensures forall j :: 0 <= j < |suggestedTickets| && suggestedTickets[j] != suggestedTickets[index] ==>
        suggestedTickets[j].description == old(suggestedTickets[j].description)
      ensures forall j :: 0 <= j < |suggestedTickets| ==> suggestedTickets[j].summary == old(suggestedTickets[j].summary)
      ensures projectMarkdown == old(projectMarkdown) && feedback == old(feedback)
      ensures jiraResponse == old(jiraResponse) && showSuggestedTicketsModal == old(showSuggestedTicketsModal)
    {
      var updated := suggestedTickets;
      updated[index].description := value;
      suggestedTickets := updated;
    }

    /** handleSubmitAllTickets (lines 129-152) as written, once the push answered with
        `data` (None when the request or its JSON failed): the message read under
        `data.created` replaces the Jira response and the modal closes; if building it
        throws, the error message is shown instead and the modal stays as it was. A body
        without "created", such as the backend's `{"created_issues": ...}`, leaves the Jira
        response empty. */
    method HandleSubmitAllTickets(data: Option<Json>, str: Json -> string)
      modifies this
      ensures PushMessageAsWritten(data, str).Some? ==>
        jiraResponse == PushMessageAsWritten(data, str).value && !showSuggestedTicketsModal
      ensures PushMessageAsWritten(data, str).None? ==>
        jiraResponse == SubmitError && showSuggestedTicketsModal == old(showSuggestedTicketsModal)
      ensures data.Some? && data.value.JObj? && "created" !in data.value.fields ==>
        jiraResponse == "" && !showSuggestedTicketsModal
      ensures projectMarkdown == old(projectMarkdown) && feedback == old(feedback)
      ensures suggestedTickets == old(suggestedTickets)
    {
      ShowPushMessage(PushMessageAsWritten(data, str));
    }

    /** handleSubmitAllTickets as intended: the same handler reading the results under
        `created_issues`, the key the backend sends. */
    method HandleSubmitAllTicketsCorrected(data: Option<Json>, str: Json -> string)
      modifies this
      ensures PushMessageCorrected(data, str).Some? ==>
        jiraResponse == PushMessageCorrected(data, str).value && !showSuggestedTicketsModal
      ensures PushMessageCorrected(data, str).None? ==>
        jiraResponse == SubmitError && showSuggestedTicketsModal == old(showSuggestedTicketsModal)
      ensures projectMarkdown == old(projectMarkdown) && feedback == old(feedback)
      ensures suggestedTickets == old(suggestedTickets)
    {
      ShowPushMessage(PushMessageCorrected(data, str));
    }

    /** The end of the handler's try (lines 144-145) and its catch (lines 146-148). */
    method ShowPushMessage(message: Option<string>)
      modifies this
      ensures message.Some? ==> jiraResponse == message.value && !showSuggestedTicketsModal
      ensures message.None? ==>
        jiraResponse == SubmitError && showSuggestedTicketsModal == old(showSuggestedTicketsModal)
      ensures projectMarkdown == old(projectMarkdown) && feedback == old(feedback)
      ensures suggestedTickets == old(suggestedTickets)
    {
      if message.Some? {
        jiraResponse := message.value;
        showSuggestedTicketsModal := false;
      } else {
        jiraResponse := SubmitError;
      }
    }
  }
}
