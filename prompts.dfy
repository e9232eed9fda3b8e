/** Prompt templates as `ChatPromptTemplate.from_template` reads them: literal text and
    `{name}` slots, filled in one pass from the variables given to `invoke`. */
module Prompts {
  import opened Documents

  datatype Piece = Lit(text: string) | Slot(name: string)

  type Template = seq<Piece>

  /** The names of the template's slots, all of which `invoke` must be given. */
  function Slots(t: Template): set<string>
    decreases |t|
  {
    if t == [] then {} else (if t[0].Slot? then {t[0].name} else {}) + Slots(t[1..])
  }

  /** Formatting a template: every literal is copied and every slot replaced by its value.
      A slot without a value raises (LangChain reports the missing input variables). */
  function Fill(t: Template, vars: map<string, string>): (r: Result<string>)
    ensures r.Ok? <==> Slots(t) <= vars.Keys
    decreases |t|
  {
    if t == [] then Ok("")
    else
      var rest := Fill(t[1..], vars);
      match t[0]
      case Lit(s) => if rest.Ok? then Ok(s + rest.value) else rest
      case Slot(n) =>
        if n !in vars then Err("missing input variable " + n)
        else if rest.Ok? then Ok(vars[n] + rest.value) else rest
  }

  /** The text one piece contributes. */
  function PieceText(p: Piece, vars: map<string, string>): string
    requires p.Slot? ==> p.name in vars
  {
    if p.Lit? then p.text else vars[p.name]
  }

  /** Filling from piece `k` on is that piece's text followed by filling from `k + 1` on. */
  lemma FillFrom(t: Template, k: nat, vars: map<string, string>, tail: string)
    requires k < |t| && (t[k].Slot? ==> t[k].name in vars)
    requires Fill(t[k + 1..], vars) == Ok(tail)
    ensures Fill(t[k..], vars) == Ok(PieceText(t[k], vars) + tail)
  {
    assert t[k..][0] == t[k] && t[k..][1..] == t[k + 1..];
    var rest := Fill(t[k..][1..], vars);
    assert rest.Ok? && rest.value == tail;
  }
}
