/** The add-bot dialog: a form of name, symbol and strategy, and the submit
    guard that rejects blank fields before handing the new bot's data on. */
module AddBotForm {
  import opened Wrappers
  import opened Types
  import opened JsStrings
  import Bots

  datatype Form = Form(name: string, symbol: string, strategy: Strategy)

  /** The form as it opens: empty name and symbol, strategy DCA. */
  function InitialForm(): (f: Form)
    ensures f.name == "" && f.symbol == "" && f.strategy == DCA
  {
    Form("", "", DCA)
  }

  /** `handleSubmit`: `None` when the name or the symbol is blank after
      trimming (the alert is shown and `onAdd` is not called); otherwise the
      payload given to `onAdd`. */
  function Submit(f: Form): (r: Option<Bots.NewBotData>)
    ensures r.None? <==> AllWhitespace(f.name) || AllWhitespace(f.symbol)
    ensures r.Some? ==>
      r.value.name == f.name && r.value.symbol == ToUpper(f.symbol) && r.value.strategy == f.strategy
  {
    BlankIffAllWhitespace(f.name);
    BlankIffAllWhitespace(f.symbol);
    if IsBlank(f.name) || IsBlank(f.symbol) then None
    else Some(Bots.NewBotData(f.name, ToUpper(f.symbol), f.strategy))
  }

  /** Submitting the untouched form is rejected, and so is any form whose name
      or symbol is only spaces. */
  lemma BlankFormsRejected(f: Form)
    ensures Submit(InitialForm()).None?
    ensures ((forall i :: 0 <= i < |f.name| ==> f.name[i] == ' ')
             || (forall i :: 0 <= i < |f.symbol| ==> f.symbol[i] == ' '))
      ==> Submit(f).None?
  {
    assert AllWhitespace(InitialForm().name);
  }

  /** The name is forwarded untrimmed and the symbol upper-cased but not
      trimmed: surrounding spaces survive. */
  lemma SubmitDoesNotTrim()
    ensures Submit(Form(" a ", " b ", Grid)) == Some(Bots.NewBotData(" a ", " B ", Grid))
  {
    assert !IsWhitespace(" a "[1]) && !IsWhitespace(" b "[1]);
    assert ToUpper(" b ") == " B " by {
      assert ToUpper(" b ")[0] == ' ' && ToUpper(" b ")[1] == 'B' && ToUpper(" b ")[2] == ' ';
    }
  }

  /** An accepted form becomes, after `handleAddBot`, an Inactive bot with
      the form's name, the upper-cased symbol and the chosen strategy, and
      neither its name nor its symbol is blank. */
  lemma AcceptedFormAdds(f: Form, id: string)
    requires Submit(f).Some?
    ensures var nb := Bots.NewBot(id, Submit(f).value);
      nb.name == f.name && nb.symbol == ToUpper(f.symbol) && nb.strategy == f.strategy
      && nb.status == Inactive && !IsBlank(nb.symbol) && !IsBlank(nb.name)
  {
    BlankIffAllWhitespace(f.name);
    BlankIffAllWhitespace(f.symbol);
    UpperKeepsBlank(f.symbol);
  }
}
