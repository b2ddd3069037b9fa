/** Chat prompt templates as LangChain builds them: a message template is a role, an optional
    speaker name (the few-shot turns carry "example_user" / "example_assistant") and a template
    text cut into literal pieces and {placeholder} slots; format_messages fills every slot. */
module ChatPrompts {
  import opened PyValues

  datatype Role = System | Human

  datatype Message = Message(role: Role, name: Option<string>, content: string)

  datatype Piece = Lit(text: string) | Slot(key: string)

  type Template = seq<Piece>

  datatype MessageTemplate = MessageTemplate(role: Role, name: Option<string>, template: Template)

  /** Every placeholder of the template has a value. */
  predicate Bound(t: Template, bindings: map<string, string>) {
    forall k :: 0 <= k < |t| && t[k].Slot? ==> t[k].key in bindings
  }

  /** Formatting one template; a placeholder without a value raises KeyError. */
  function Fill(t: Template, bindings: map<string, string>): (r: Result<string>)
    ensures r.Ok? <==> Bound(t, bindings)
    ensures r.Err? ==> r.error == KeyError
  {
    if |t| == 0 then Ok("")
    else
      var head := match t[0] case Lit(s) => Ok(s) case Slot(key) => if key in bindings then Ok(bindings[key]) else Err(KeyError);
      match head
      case Err(e) => Err(e)
      case Ok(h) =>
        match Fill(t[1..], bindings)
        case Err(e) => Err(e)
        case Ok(rest) => Ok(h + rest)
  }

  /** The text one piece contributes once every slot is bound. */
  function PieceText(p: Piece, bindings: map<string, string>): string
    requires p.Slot? ==> p.key in bindings
  {
    match p
    case Lit(s) => s
    case Slot(key) => bindings[key]
  }

  /** The filled text, assembled from the last piece backwards: the pieces' texts in order. */
  function Rendered(t: Template, bindings: map<string, string>): (s: string)
    requires Bound(t, bindings)
  {
    if |t| == 0 then ""
    else Rendered(t[..|t| - 1], bindings) + PieceText(t[|t| - 1], bindings)
  }

  /** Filling a concatenation of templates concatenates the filled texts. */
  lemma {:induction false} FillAppend(t1: Template, t2: Template, bindings: map<string, string>)
    requires Bound(t1, bindings) && Bound(t2, bindings)
    ensures Bound(t1 + t2, bindings)
    ensures Fill(t1 + t2, bindings) == Ok(Fill(t1, bindings).value + Fill(t2, bindings).value)
    decreases |t1|
  {
    if |t1| == 0 {
      assert t1 + t2 == t2;
      assert "" + Fill(t2, bindings).value == Fill(t2, bindings).value;
    } else {
      assert (t1 + t2)[0] == t1[0];
      assert (t1 + t2)[1..] == t1[1..] + t2;
      assert Bound(t1[1..], bindings) by {
        forall k | 0 <= k < |t1[1..]| && t1[1..][k].Slot? ensures t1[1..][k].key in bindings {
          assert t1[1..][k] == t1[k + 1];
        }
      }
      FillAppend(t1[1..], t2, bindings);
      var h := PieceText(t1[0], bindings);
      var x := Fill(t1[1..], bindings).value;
      var y := Fill(t2, bindings).value;
      assert Fill(t1, bindings) == Ok(h + x);
      assert Fill(t1 + t2, bindings) == Ok(h + (x + y));
      assert h + (x + y) == h + x + y;
    }
  }

  /** With every slot bound, filling gives the rendered text. */
  lemma {:induction false} FillIsRendered(t: Template, bindings: map<string, string>)
    requires Bound(t, bindings)
    ensures Fill(t, bindings) == Ok(Rendered(t, bindings))
    decreases |t|
  {
    if |t| > 0 {
      var init := t[..|t| - 1];
      var last := [t[|t| - 1]];
      assert t == init + last;
      assert Bound(init, bindings) by {
        forall k | 0 <= k < |init| && init[k].Slot? ensures init[k].key in bindings {
          assert init[k] == t[k];
        }
      }
      FillIsRendered(init, bindings);
      FillAppend(init, last, bindings);
      assert last[1..] == [];
      assert Fill(last, bindings) == Ok(PieceText(t[|t| - 1], bindings) + "");
      assert PieceText(t[|t| - 1], bindings) + "" == PieceText(t[|t| - 1], bindings);
    }
  }

  /** A template of literal, slot, literal. */
  lemma FillThree(a: string, key: string, c: string, bindings: map<string, string>)
    requires key in bindings
    ensures Fill([Lit(a), Slot(key), Lit(c)], bindings) == Ok(a + bindings[key] + c)
  {
    var t := [Lit(a), Slot(key), Lit(c)];
    FillIsRendered(t, bindings);
    assert t[..2] == [Lit(a), Slot(key)];
    assert t[..2][..1] == [Lit(a)];
    assert [Lit(a)][..0] == [];
    assert "" + a == a;
    assert Rendered([Lit(a)], bindings) == a;
    assert Rendered(t[..2], bindings) == a + bindings[key];
    assert Rendered(t, bindings) == a + bindings[key] + c;
  }

  /** A template of literal, slot, literal, slot, literal. */
  lemma FillFive(a: string, k1: string, c: string, k2: string, e: string, bindings: map<string, string>)
    requires k1 in bindings && k2 in bindings
    ensures Fill([Lit(a), Slot(k1), Lit(c), Slot(k2), Lit(e)], bindings)
            == Ok(a + bindings[k1] + c + bindings[k2] + e)
  {
    var t := [Lit(a), Slot(k1), Lit(c), Slot(k2), Lit(e)];
    FillIsRendered(t, bindings);
    assert t[..4] == [Lit(a), Slot(k1), Lit(c), Slot(k2)];
    assert t[..4][..3] == [Lit(a), Slot(k1), Lit(c)];
    assert t[..4][..3][..2] == [Lit(a), Slot(k1)];
    assert t[..4][..3][..2][..1] == [Lit(a)];
    assert [Lit(a)][..0] == [];
    assert "" + a == a;
    assert Rendered([Lit(a)], bindings) == a;
    assert Rendered(t[..4][..3][..2], bindings) == a + bindings[k1];
    assert Rendered(t[..4][..3], bindings) == a + bindings[k1] + c;
    assert Rendered(t[..4], bindings) == a + bindings[k1] + c + bindings[k2];
    assert Rendered(t, bindings) == a + bindings[k1] + c + bindings[k2] + e;
  }

  /** A template of one literal. */
  lemma FillLiteral(a: string, bindings: map<string, string>)
    ensures Fill([Lit(a)], bindings) == Ok(a)
  {
    assert [Lit(a)][1..] == [];
    assert a + "" == a;
  }

  /** ChatPromptTemplate.format_messages: the messages in the templates' order, each with its
      template's role and name and its filled text. */
  function FormatMessages(prompt: seq<MessageTemplate>, bindings: map<string, string>): (r: Result<seq<Message>>)
    ensures r.Ok? <==> forall k :: 0 <= k < |prompt| ==> Bound(prompt[k].template, bindings)
    ensures r.Ok? ==> |r.value| == |prompt|
    ensures r.Ok? ==> forall k :: 0 <= k < |prompt| ==>
              && r.value[k].role == prompt[k].role
              && r.value[k].name == prompt[k].name
              && Ok(r.value[k].content) == Fill(prompt[k].template, bindings)
  {
    if |prompt| == 0 then Ok([])
    else
      match Fill(prompt[0].template, bindings)
      case Err(e) => Err(e)
      case Ok(first) =>
        match FormatMessages(prompt[1..], bindings)
        case Err(e) => Err(e)
        case Ok(rest) => Ok([Message(prompt[0].role, prompt[0].name, first)] + rest)
  }

  /** When each template fills to the given text, the formatted messages are exactly those
      texts under the templates' roles and names. */
  lemma FormatMessagesFilled(prompt: seq<MessageTemplate>, bindings: map<string, string>, contents: seq<string>)
    requires |contents| == |prompt|
    requires forall k :: 0 <= k < |prompt| ==> Fill(prompt[k].template, bindings) == Ok(contents[k])
    ensures FormatMessages(prompt, bindings) ==
            Ok(seq(|prompt|, k requires 0 <= k < |prompt| => Message(prompt[k].role, prompt[k].name, contents[k])))
  {
    var r := FormatMessages(prompt, bindings);
    assert r.Ok?;
    assert r.value == seq(|prompt|, k requires 0 <= k < |prompt| => Message(prompt[k].role, prompt[k].name, contents[k]));
  }
}
