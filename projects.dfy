/**
 * The project scheduling form: name, description, type, a start and an end
 * date, four error texts and the type option list. There is no store: a
 * valid submit hands the project on (as an alert) and resets the form.
 * "Now", which the form reads for its default dates, is a parameter.
 */
module Projects {
  import opened Base
  import opened JsText
  import opened Dates

  /** The editable fields of the form. */
  datatype ProjectDraft = ProjectDraft(nome: string, descricao: string, dataInicio: Date, dataFim: Date, tipo: string)

  /** The four error texts; "" means no error is shown. */
  datatype ProjectErrors = ProjectErrors(nome: string, descricao: string, tipo: string, data: string)

  /** `projetoData`: the submitted project, with both dates as `formatDate` text. */
  datatype ProjectData = ProjectData(nome: string, descricao: string, dataInicio: string, dataFim: string, tipo: string)

  const NomeMessage := "O nome do projeto deve ter pelo menos 3 caracteres"
  const DescricaoMessage := "A descrição deve ter pelo menos 10 caracteres"
  const TipoMessage := "O tipo de projeto é obrigatório"
  const DataMessage := "A data de início não pode ser posterior à data de finalização"

  predicate NomeFails(d: ProjectDraft) {
    TrimmedTooShort(d.nome, 3)
  }

  predicate DescricaoFails(d: ProjectDraft) {
    TrimmedTooShort(d.descricao, 10)
  }

  predicate TipoFails(d: ProjectDraft) {
    d.tipo == ""
  }

  predicate DataFails(d: ProjectDraft) {
    After(d.dataInicio, d.dataFim)
  }

  /** No rule of `validateForm` fires. */
  predicate IsValid(d: ProjectDraft) {
    !NomeFails(d) && !DescricaoFails(d) && !TipoFails(d) && !DataFails(d)
  }

  /**
   * The errors after `validateForm` on draft `d`, starting from `e`: each
   * rule that fires sets its message, every other error keeps the text it had.
   */
  function AfterValidation(e: ProjectErrors, d: ProjectDraft): (r: ProjectErrors)
    ensures r.nome == (if |Trim(d.nome)| < 3 then NomeMessage else e.nome)
    ensures r.descricao == (if |Trim(d.descricao)| < 10 then DescricaoMessage else e.descricao)
    ensures r.tipo == (if d.tipo == "" then TipoMessage else e.tipo)
    ensures r.data == (if After(d.dataInicio, d.dataFim) then DataMessage else e.data)
  {
    ProjectErrors(
      if NomeFails(d) then NomeMessage else e.nome,
      if DescricaoFails(d) then DescricaoMessage else e.descricao,
      if TipoFails(d) then TipoMessage else e.tipo,
      if DataFails(d) then DataMessage else e.data)
  }

  /** `validateForm` never clears an error: a text shown before is still shown (possibly replaced by the rule's own). */
  lemma ValidationNeverClears(e: ProjectErrors, d: ProjectDraft)
    ensures var r := AfterValidation(e, d);
      && (e.nome != "" ==> r.nome != "") && (e.descricao != "" ==> r.descricao != "")
      && (e.tipo != "" ==> r.tipo != "") && (e.data != "" ==> r.data != "")
  {
  }

  /** From a form showing no errors, each error is shown exactly when its rule fires, and none is shown exactly when the draft is valid. */
  lemma ValidationFromNoErrors(d: ProjectDraft)
    ensures var r := AfterValidation(ProjectErrors("", "", "", ""), d);
      && (r.nome != "" <==> |Trim(d.nome)| < 3) && (r.descricao != "" <==> |Trim(d.descricao)| < 10)
      && (r.tipo != "" <==> d.tipo == "") && (r.data != "" <==> After(d.dataInicio, d.dataFim))
      && (r == ProjectErrors("", "", "", "") <==> IsValid(d))
  {
  }

  /** Validating twice in a row shows the same errors as validating once. */
  lemma ValidationIdempotent(e: ProjectErrors, d: ProjectDraft)
    ensures AfterValidation(AfterValidation(e, d), d) == AfterValidation(e, d)
  {
  }

  /**
   * The date rule compares the dates alone: whether it fires does not depend
   * on name, description or type, and a valid draft's start is not after its end.
   */
  lemma DateRuleIgnoresOtherFields(d: ProjectDraft, nome: string, descricao: string, tipo: string)
    ensures DataFails(d) <==> DataFails(d.(nome := nome, descricao := descricao, tipo := tipo))
    ensures IsValid(d) && d.dataInicio.Day? && d.dataFim.Day? ==>
              d.dataInicio == d.dataFim || After(d.dataFim, d.dataInicio)
  {
    AfterIsStrictOrder(d.dataInicio, d.dataFim, d.dataFim);
  }

  /** The project `handleSubmit` hands on for a draft. */
  function Submission(d: ProjectDraft): (p: ProjectData)
    ensures p.nome == d.nome && p.descricao == d.descricao && p.tipo == d.tipo
    ensures p.dataInicio == FormatDate(d.dataInicio) && p.dataFim == FormatDate(d.dataFim)
  {
    ProjectData(d.nome, d.descricao, FormatDate(d.dataInicio), FormatDate(d.dataFim), d.tipo)
  }

  /** A submitted project's dates read back as the dates of the form, for canonical dates (years 0 to 99 excepted). */
  lemma SubmissionDatesReadBack(d: ProjectDraft)
    requires Canonical(d.dataInicio) && Canonical(d.dataFim)
    ensures ParseDate(Submission(d).dataInicio) == d.dataInicio
    ensures ParseDate(Submission(d).dataFim) == d.dataFim
  {
    FormatParseRoundTrip(d.dataInicio);
    FormatParseRoundTrip(d.dataFim);
  }

  class ProjetoForm {
    var nomeProjeto: string
    var descricaoProjeto: string
    var dataInicio: Date
    var dataFim: Date
    var tipoProjeto: string
    var showTipoOptions: bool
    var nomeProjetoError: string
    var descricaoError: string
    var tipoProjetoError: string
    var dataError: string

    function CurrentDraft(): ProjectDraft
      reads this`nomeProjeto, this`descricaoProjeto, this`dataInicio, this`dataFim, this`tipoProjeto
    {
      ProjectDraft(nomeProjeto, descricaoProjeto, dataInicio, dataFim, tipoProjeto)
    }

    function CurrentErrors(): ProjectErrors
      reads this`nomeProjetoError, this`descricaoError, this`tipoProjetoError, this`dataError
    {
      ProjectErrors(nomeProjetoError, descricaoError, tipoProjetoError, dataError)
    }

    /** The form as first rendered: empty texts, both dates today, no errors, the option list closed. */
    constructor (today: Date)
      ensures CurrentDraft() == ProjectDraft("", "", today, today, "")
      ensures CurrentErrors() == ProjectErrors("", "", "", "") && !showTipoOptions
    {
      nomeProjeto, descricaoProjeto, tipoProjeto := "", "", "";
      dataInicio, dataFim := today, today;
      showTipoOptions := false;
      nomeProjetoError, descricaoError, tipoProjetoError, dataError := "", "", "", "";
    }

    /** `validateForm()`: sets the error of every rule that fires, clears none, and says whether none fired. */
    method ValidateForm() returns (isValid: bool)
      modifies this`nomeProjetoError, this`descricaoError, this`tipoProjetoError, this`dataError
      ensures CurrentErrors() == AfterValidation(old(CurrentErrors()), CurrentDraft())
      ensures isValid <==> IsValid(CurrentDraft())
    {
      isValid := true;
      if TrimmedTooShort(nomeProjeto, 3) {
        nomeProjetoError := NomeMessage;
        isValid := false;
      }
      if TrimmedTooShort(descricaoProjeto, 10) {
        descricaoError := DescricaoMessage;
        isValid := false;
      }
      if tipoProjeto == "" {
        tipoProjetoError := TipoMessage;
        isValid := false;
      }
      if After(dataInicio, dataFim) {
        dataError := DataMessage;
        isValid := false;
      }
    }

    /**
     * `handleSubmit()`: validates; a valid draft is handed on and the form is
     * reset, both dates to `today`. An invalid draft stays as it was.
     */
    method HandleSubmit(today: Date) returns (submitted: Option<ProjectData>, alert: string)
      modifies this`nomeProjeto, this`descricaoProjeto, this`dataInicio, this`dataFim, this`tipoProjeto
      modifies this`nomeProjetoError, this`descricaoError, this`tipoProjetoError, this`dataError
      ensures CurrentErrors() == AfterValidation(old(CurrentErrors()), old(CurrentDraft()))
      ensures submitted.Some? <==> IsValid(old(CurrentDraft()))
      ensures submitted.Some? ==>
                && submitted.value == Submission(old(CurrentDraft()))
                && alert == "Projeto \"" + old(nomeProjeto) + "\" agendado com sucesso!"
                && CurrentDraft() == ProjectDraft("", "", today, today, "")
      ensures submitted.None? ==> CurrentDraft() == old(CurrentDraft()) && alert == ""
    {
      var draft := CurrentDraft();
      var valid := ValidateForm();
      if !valid {
        return None, "";
      }
      submitted := Some(Submission(draft));
      alert := "Projeto \"" + nomeProjeto + "\" agendado com sucesso!";
      nomeProjeto := "";
      descricaoProjeto := "";
      dataInicio := today;
      dataFim := today;
      tipoProjeto := "";
    }

    /** `selectTipoProjeto(tipo)`: sets the type, clears its error, closes the option list. */
    method SelectTipoProjeto(tipo: string)
      modifies this`tipoProjeto, this`tipoProjetoError, this`showTipoOptions
      ensures tipoProjeto == tipo && tipoProjetoError == "" && !showTipoOptions
    {
      tipoProjeto := tipo;
      tipoProjetoError := "";
      showTipoOptions := false;
    }

    /** The type button: opens or closes the option list. */
    method ToggleTipoOptions()
      modifies this`showTipoOptions
      ensures showTipoOptions == !old(showTipoOptions)
    {
      showTipoOptions := !showTipoOptions;
    }

    /** Typing in the name field clears the name error only. */
    method SetNomeProjeto(text: string)
      modifies this`nomeProjeto, this`nomeProjetoError
      ensures nomeProjeto == text && nomeProjetoError == ""
    {
      nomeProjeto := text;
      nomeProjetoError := "";
    }

    /** Typing in the description field clears the description error only. */
    method SetDescricaoProjeto(text: string)
      modifies this`descricaoProjeto, this`descricaoError
      ensures descricaoProjeto == text && descricaoError == ""
    {
      descricaoProjeto := text;
      descricaoError := "";
    }

    /** Picking a start date clears the date error. */
    method SetDataInicio(date: Date)
      modifies this`dataInicio, this`dataError
      ensures dataInicio == date && dataError == ""
    {
      dataInicio := date;
      dataError := "";
    }

    /** Picking an end date clears the date error. */
    method SetDataFim(date: Date)
      modifies this`dataFim, this`dataError
      ensures dataFim == date && dataError == ""
    {
      dataFim := date;
      dataError := "";
    }
  }
}
