/**
 * The tutorial manager screen: a form draft (name, description, duration,
 * type, posting date), the key and record being edited, five field errors,
 * a list of the user's tutorials fed by a realtime subscription, and the
 * list/form mode. Answers from the realtime store, the signed-in user and
 * the confirmation dialog are parameters of the methods.
 */
module Tutorials {
  import opened Base
  import opened JsText
  import opened Dates

  /** `createdAt`: the server-timestamp placeholder sent on writes, or the stored milliseconds. */
  datatype Timestamp = ServerTimestamp | Millis(ms: int)

  /** The object written under `tutoriais/<key>`. */
  datatype TutorialData = TutorialData(
    nome: string, descricao: string, duracao: string, tipo: string,
    dataPostagem: string, userId: string, createdAt: Timestamp)

  /** One child of the `tutoriais` query as the snapshot delivers it. */
  datatype Child = Child(key: string, val: TutorialData)

  /** A list entry `{ key: child.key, ...child.val() }`; the stored object has no `key` of its own. */
  datatype Tutorial = Tutorial(key: string, data: TutorialData)

  /** The editable fields of the form. */
  datatype Draft = Draft(nome: string, descricao: string, duracao: string, tipo: string, dataPostagem: Option<Date>)

  const EmptyDraft := Draft("", "", "", "", None)

  /** The five error texts; "" means no error is shown. */
  datatype FormErrors = FormErrors(nome: string, descricao: string, duracao: string, tipo: string, data: string) {
    predicate NoneSet() {
      nome == "" && descricao == "" && duracao == "" && tipo == "" && data == ""
    }
  }

  const NoErrors := FormErrors("", "", "", "", "")

  const NomeMessage := "O nome do tutorial deve ter pelo menos 3 caracteres"
  const DescricaoMessage := "A descrição deve ter pelo menos 10 caracteres"
  const DuracaoMessage := "A duração é obrigatória"
  const TipoMessage := "O tipo de tutorial é obrigatório"
  const DataMessage := "A data de postagem é obrigatória"

  /** The errors `validateForm` leaves for a draft. */
  function Validate(d: Draft): FormErrors {
    FormErrors(
      if TrimmedTooShort(d.nome, 3) then NomeMessage else "",
      if TrimmedTooShort(d.descricao, 10) then DescricaoMessage else "",
      if |Trim(d.duracao)| == 0 then DuracaoMessage else "",
      if d.tipo == "" then TipoMessage else "",
      if d.dataPostagem.None? then DataMessage else "")
  }

  /** No rule of `validateForm` fires. */
  predicate Complete(d: Draft) {
    !TrimmedTooShort(d.nome, 3) && !TrimmedTooShort(d.descricao, 10) && |Trim(d.duracao)| != 0 && d.tipo != "" && d.dataPostagem.Some?
  }

  /**
   * Each error is shown exactly when its rule fails, and then with that
   * rule's message; trimmed text of fewer than 3 (name) or 10 (description)
   * characters fails, blank text included. No error is shown exactly when
   * the draft is complete.
   */
  lemma ValidateShowsFailedRules(d: Draft)
    ensures var e := Validate(d);
      && (e.nome != "" <==> |Trim(d.nome)| < 3) && (e.descricao != "" <==> |Trim(d.descricao)| < 10)
      && (e.duracao != "" <==> |Trim(d.duracao)| == 0) && (e.tipo != "" <==> d.tipo == "")
      && (e.data != "" <==> d.dataPostagem.None?)
    ensures var e := Validate(d);
      && e.nome in {"", NomeMessage} && e.descricao in {"", DescricaoMessage} && e.duracao in {"", DuracaoMessage}
      && e.tipo in {"", TipoMessage} && e.data in {"", DataMessage}
    ensures Validate(d).NoneSet() <==> Complete(d)
  {
  }

  /** Tutorials' `formatDate`: the empty string for a missing date. */
  function FormatOptDate(d: Option<Date>): (s: string)
    ensures s == "" <==> d.None?
  {
    if d.None? then "" else FormatDate(d.value)
  }

  /**
   * `hasChanges()`: with no record being edited, whether any field was
   * filled in; with one, whether saving the draft over it would store
   * anything other than what it holds (its owner and creation time kept),
   * the date being compared as its `formatDate` text.
   */
  function HasChanges(d: Draft, editing: Option<Tutorial>): (changed: bool)
    ensures editing.None? ==> (changed <==> d != EmptyDraft)
    ensures editing.Some? ==> var t := editing.value.data;
      (changed <==> Payload(d, t.userId).(createdAt := t.createdAt) != t)
  {
    if editing.None? && (d.nome != "" || d.descricao != "" || d.duracao != "" || d.tipo != "" || d.dataPostagem.Some?) then true
    else if editing.Some? then
      var t := editing.value.data;
      d.nome != t.nome || d.descricao != t.descricao || d.duracao != t.duracao
        || d.tipo != t.tipo || FormatOptDate(d.dataPostagem) != t.dataPostagem
    else false
  }

  /** What `loadTutorialData(t)` makes of draft `d`: a record without a date leaves the draft's date alone. */
  function LoadInto(d: Draft, t: Tutorial): Draft {
    Draft(t.data.nome, t.data.descricao, t.data.duracao, t.data.tipo,
          if t.data.dataPostagem != "" then Some(ParseDate(t.data.dataPostagem)) else d.dataPostagem)
  }

  /** The object `saveTutorial` writes for a draft and a user id. */
  function Payload(d: Draft, uid: string): (data: TutorialData)
    ensures data.dataPostagem == FormatOptDate(d.dataPostagem) && data.createdAt == ServerTimestamp && data.userId == uid
    ensures data.nome == d.nome && data.descricao == d.descricao && data.duracao == d.duracao && data.tipo == d.tipo
  {
    TutorialData(d.nome, d.descricao, d.duracao, d.tipo, FormatOptDate(d.dataPostagem), uid, ServerTimestamp)
  }

  /**
   * Editing a record whose stored date is the `formatDate` text of a
   * canonical date leaves nothing to discard: `hasChanges()` is false
   * straight after `editTutorial`, whatever the draft held before.
   */
  lemma EditedRecordHasNoChanges(before: Draft, t: Tutorial, c: Date)
    requires Canonical(c) && t.data.dataPostagem == FormatDate(c)
    ensures !HasChanges(LoadInto(before, t), Some(t))
  {
    FormatParseRoundTrip(c);
    assert FormatOptDate(Some(c)) == FormatDate(c);
  }

  /**
   * Saving a valid draft and loading the saved record back into any form
   * gives the same draft.
   */
  lemma SaveThenEditRoundTrip(d: Draft, uid: string, key: string, other: Draft)
    requires Complete(d) && Canonical(d.dataPostagem.value)
    ensures LoadInto(other, Tutorial(key, Payload(d, uid))) == d
  {
    FormatParseRoundTrip(d.dataPostagem.value);
  }

  /** The write issued against the `tutoriais` node. */
  datatype StoreWrite = NoWrite | Create(data: TutorialData) | Update(key: string, data: TutorialData) | Remove(key: string)

  /** How `saveTutorial` ended, with the alert it raises. */
  datatype SaveOutcome = Rejected | Unauthenticated | Saved | SaveFailed

  class TutorialForm {
    var nomeTutorial: string
    var descricaoTutorial: string
    var duracaoTutorial: string
    var dataPostagem: Option<Date>
    var tipoTutorial: string
    var showTipoOptions: bool
    var nomeTutorialError: string
    var descricaoError: string
    var duracaoError: string
    var tipoTutorialError: string
    var dataError: string
    var key: string
    var loading: bool
    var tutorials: seq<Tutorial>
    var isListMode: bool
    var editingTutorial: Option<Tutorial>

    function CurrentDraft(): Draft
      reads this`nomeTutorial, this`descricaoTutorial, this`duracaoTutorial, this`tipoTutorial, this`dataPostagem
    {
      Draft(nomeTutorial, descricaoTutorial, duracaoTutorial, tipoTutorial, dataPostagem)
    }

    function CurrentErrors(): FormErrors
      reads this`nomeTutorialError, this`descricaoError, this`duracaoError, this`tipoTutorialError, this`dataError
    {
      FormErrors(nomeTutorialError, descricaoError, duracaoError, tipoTutorialError, dataError)
    }

    /** The screen as first rendered: an empty form (not the list), nothing loading. */
    constructor ()
      ensures CurrentDraft() == EmptyDraft && CurrentErrors() == NoErrors
      ensures key == "" && editingTutorial.None? && !isListMode
      ensures !loading && tutorials == [] && !showTipoOptions
    {
      nomeTutorial, descricaoTutorial, duracaoTutorial, dataPostagem, tipoTutorial := "", "", "", None, "";
      showTipoOptions := false;
      nomeTutorialError, descricaoError, duracaoError, tipoTutorialError, dataError := "", "", "", "", "";
      key := "";
      loading := false;
      tutorials := [];
      isListMode := false;
      editingTutorial := None;
    }

    /**
     * `loadTutorials()`: raises the loading flag; with a signed-in user it
     * subscribes to that user's tutorials (whose deliveries `OnSnapshot`
     * models), without one it only alerts and the flag stays up. A subscribe
     * that throws is caught: it alerts and lowers the flag. The list is left
     * as it was in every case.
     */
    method LoadTutorials(userPresent: bool, subscribeOk: bool) returns (subscribed: bool)
      modifies this`loading
      ensures subscribed <==> userPresent && subscribeOk
      ensures loading <==> !userPresent || subscribeOk
      ensures tutorials == old(tutorials)
    {
      loading := true;
      if !userPresent {
        return false;
      }
      if subscribeOk {
        subscribed := true;
      } else {
        subscribed := false;
        loading := false;
      }
    }

    /** The `value` listener: the list becomes the snapshot's children, in order, each with its key. */
    method OnSnapshot(children: seq<Child>)
      modifies this`tutorials, this`loading
      ensures !loading
      ensures |tutorials| == |children|
      ensures forall i :: 0 <= i < |children| ==> tutorials[i] == Tutorial(children[i].key, children[i].val)
    {
      var list: seq<Tutorial> := [];
      for i := 0 to |children|
        invariant |list| == i
        invariant forall j :: 0 <= j < i ==> list[j] == Tutorial(children[j].key, children[j].val)
      {
        list := list + [Tutorial(children[i].key, children[i].val)];
      }
      tutorials := list;
      loading := false;
    }

    /** `validateForm()`: clears the five errors, sets each one whose rule fails, and says whether none did. */
    method ValidateForm() returns (isValid: bool)
      modifies this`nomeTutorialError, this`descricaoError, this`duracaoError, this`tipoTutorialError, this`dataError
      ensures CurrentErrors() == Validate(CurrentDraft())
      ensures isValid <==> Complete(CurrentDraft())
    {
      isValid := true;
      nomeTutorialError := "";
      descricaoError := "";
      duracaoError := "";
      tipoTutorialError := "";
      dataError := "";
      if TrimmedTooShort(nomeTutorial, 3) {
        nomeTutorialError := NomeMessage;
        isValid := false;
      }
      if TrimmedTooShort(descricaoTutorial, 10) {
        descricaoError := DescricaoMessage;
        isValid := false;
      }
      if |Trim(duracaoTutorial)| == 0 {
        duracaoError := DuracaoMessage;
        isValid := false;
      }
      if tipoTutorial == "" {
        tipoTutorialError := TipoMessage;
        isValid := false;
      }
      if dataPostagem.None? {
        dataError := DataMessage;
        isValid := false;
      }
    }

    /** `clearFields()`: an empty draft, no key and no record being edited. */
    method ClearFields()
      modifies this`nomeTutorial, this`descricaoTutorial, this`duracaoTutorial, this`dataPostagem, this`tipoTutorial
      modifies this`key, this`editingTutorial
      ensures CurrentDraft() == EmptyDraft && key == "" && editingTutorial.None?
    {
      nomeTutorial := "";
      descricaoTutorial := "";
      duracaoTutorial := "";
      dataPostagem := None;
      tipoTutorial := "";
      key := "";
      editingTutorial := None;
    }

    /**
     * `saveTutorial()`: validates; with a valid draft and a signed-in user,
     * writes the draft (an update of `key` when there is one, else a new
     * child) and, when the store accepts it, empties the form, reloads the
     * list and shows it; the loading flag then stays up unless the
     * subscribe of the reload throws. Otherwise draft, key, record, mode and
     * loading flag stay as they were.
     */
    method SaveTutorial(user: Option<string>, storeOk: bool, subscribeOk: bool) returns (write: StoreWrite, outcome: SaveOutcome)
      modifies this`nomeTutorial, this`descricaoTutorial, this`duracaoTutorial, this`dataPostagem, this`tipoTutorial
      modifies this`nomeTutorialError, this`descricaoError, this`duracaoError, this`tipoTutorialError, this`dataError
      modifies this`key, this`editingTutorial, this`isListMode, this`loading
      ensures CurrentErrors() == Validate(old(CurrentDraft()))
      ensures outcome == (if !Complete(old(CurrentDraft())) then Rejected
                          else if user.None? then Unauthenticated
                          else if storeOk then Saved else SaveFailed)
      ensures outcome in {Rejected, Unauthenticated} ==> write == NoWrite
      ensures outcome in {Saved, SaveFailed} ==>
                write == (if old(key) != "" then Update(old(key), Payload(old(CurrentDraft()), user.value))
                          else Create(Payload(old(CurrentDraft()), user.value)))
      ensures outcome == Saved ==> CurrentDraft() == EmptyDraft && key == "" && editingTutorial.None? && isListMode && loading == subscribeOk
      ensures outcome != Saved ==>
                && CurrentDraft() == old(CurrentDraft()) && key == old(key) && editingTutorial == old(editingTutorial)
                && isListMode == old(isListMode) && loading == old(loading)
    {
      var draft := CurrentDraft();
      var valid := ValidateForm();
      if !valid {
        return NoWrite, Rejected;
      }
      if user.None? {
        return NoWrite, Unauthenticated;
      }
      var data := Payload(draft, user.value);
      if key != "" {
        write := Update(key, data);
      } else {
        write := Create(data);
      }
      if storeOk {
        ClearFields();
        var _ := LoadTutorials(true, subscribeOk);
        isListMode := true;
        outcome := Saved;
      } else {
        outcome := SaveFailed;
      }
    }

    /** `selectTipoTutorial(tipo)`: sets the type, clears its error, closes the option list. */
    method SelectTipoTutorial(tipo: string)
      modifies this`tipoTutorial, this`tipoTutorialError, this`showTipoOptions
      ensures tipoTutorial == tipo && tipoTutorialError == "" && !showTipoOptions
    {
      tipoTutorial := tipo;
      tipoTutorialError := "";
      showTipoOptions := false;
    }

    /** The type button: opens or closes the option list. */
    method ToggleTipoOptions()
      modifies this`showTipoOptions
      ensures showTipoOptions == !old(showTipoOptions)
    {
      showTipoOptions := !showTipoOptions;
    }

    /**
     * `deleteTutorial(k)`: removes the child `k` straight away (no
     * confirmation); on success reloads the list, on failure only alerts.
     * The list itself changes only on the next snapshot.
     */
    method DeleteTutorial(tutorialKey: string, storeOk: bool, userPresent: bool, subscribeOk: bool) returns (write: StoreWrite)
      modifies this`loading
      ensures write == Remove(tutorialKey)
      ensures storeOk ==> (loading <==> !userPresent || subscribeOk)
      ensures !storeOk ==> loading == old(loading)
      ensures tutorials == old(tutorials)
    {
      write := Remove(tutorialKey);
      if storeOk {
        var _ := LoadTutorials(userPresent, subscribeOk);
      }
    }

    /** `loadTutorialData(t)`: copies the record's key and fields into the form, reading its date back. */
    method LoadTutorialData(t: Tutorial)
      modifies this`nomeTutorial, this`descricaoTutorial, this`duracaoTutorial, this`dataPostagem, this`tipoTutorial, this`key
      ensures key == t.key && CurrentDraft() == LoadInto(old(CurrentDraft()), t)
    {
      key := t.key;
      nomeTutorial := t.data.nome;
      descricaoTutorial := t.data.descricao;
      duracaoTutorial := t.data.duracao;
      tipoTutorial := t.data.tipo;
      if t.data.dataPostagem != "" {
        dataPostagem := Some(ParseDate(t.data.dataPostagem));
      }
    }

    /** `editTutorial(t)`: loads the record, remembers it as the one being edited, shows the form. */
    method EditTutorial(t: Tutorial)
      modifies this`nomeTutorial, this`descricaoTutorial, this`duracaoTutorial, this`dataPostagem, this`tipoTutorial, this`key
      modifies this`editingTutorial, this`isListMode
      ensures key == t.key && CurrentDraft() == LoadInto(old(CurrentDraft()), t)
      ensures editingTutorial == Some(t) && !isListMode
    {
      LoadTutorialData(t);
      editingTutorial := Some(t);
      isListMode := false;
    }

    /** The route-parameter effect: a tutorial passed by navigation is loaded and edited, the mode is left alone. */
    method OpenFromRoute(t: Tutorial)
      modifies this`nomeTutorial, this`descricaoTutorial, this`duracaoTutorial, this`dataPostagem, this`tipoTutorial, this`key
      modifies this`editingTutorial
      ensures key == t.key && CurrentDraft() == LoadInto(old(CurrentDraft()), t)
      ensures editingTutorial == Some(t)
    {
      LoadTutorialData(t);
      editingTutorial := Some(t);
    }

    /** The add button of the list: shows an empty form for a new tutorial. */
    method AddPressed()
      modifies this`nomeTutorial, this`descricaoTutorial, this`duracaoTutorial, this`dataPostagem, this`tipoTutorial
      modifies this`key, this`editingTutorial, this`isListMode
      ensures CurrentDraft() == EmptyDraft && key == "" && editingTutorial.None? && !isListMode
    {
      isListMode := false;
      ClearFields();
    }

    /**
     * `confirmCancel()`: with nothing changed, goes straight to the list.
     * Otherwise asks; "Sim" reloads the record being edited (or clears a new
     * draft) and goes to the list, "Não" changes nothing.
     */
    method ConfirmCancel(confirmed: bool) returns (asked: bool)
      modifies this`nomeTutorial, this`descricaoTutorial, this`duracaoTutorial, this`dataPostagem, this`tipoTutorial
      modifies this`key, this`editingTutorial, this`isListMode
      ensures asked == HasChanges(old(CurrentDraft()), old(editingTutorial))
      ensures !asked || confirmed ==> isListMode
      ensures !asked || !confirmed ==> CurrentDraft() == old(CurrentDraft()) && key == old(key)
      ensures asked && !confirmed ==> isListMode == old(isListMode)
      ensures asked && confirmed && old(editingTutorial).Some? ==>
                CurrentDraft() == LoadInto(old(CurrentDraft()), old(editingTutorial).value) && key == old(editingTutorial).value.key
      ensures asked && confirmed && old(editingTutorial).None? ==> CurrentDraft() == EmptyDraft && key == ""
      ensures editingTutorial == old(editingTutorial)
    {
      if !HasChanges(CurrentDraft(), editingTutorial) {
        isListMode := true;
        return false;
      }
      asked := true;
      if confirmed {
        if editingTutorial.Some? {
          LoadTutorialData(editingTutorial.value);
        } else {
          ClearFields();
        }
        isListMode := true;
      }
    }

    /** Typing in the name field clears its error. */
    method SetNomeTutorial(text: string)
      modifies this`nomeTutorial, this`nomeTutorialError
      ensures nomeTutorial == text && nomeTutorialError == ""
    {
      nomeTutorial := text;
      nomeTutorialError := "";
    }

    /** Typing in the description field clears its error. */
    method SetDescricaoTutorial(text: string)
      modifies this`descricaoTutorial, this`descricaoError
      ensures descricaoTutorial == text && descricaoError == ""
    {
      descricaoTutorial := text;
      descricaoError := "";
    }

    /** Typing in the duration field clears its error. */
    method SetDuracaoTutorial(text: string)
      modifies this`duracaoTutorial, this`duracaoError
      ensures duracaoTutorial == text && duracaoError == ""
    {
      duracaoTutorial := text;
      duracaoError := "";
    }

    /** Picking a posting date clears the date error. */
    method SetDataPostagem(date: Date)
      modifies this`dataPostagem, this`dataError
      ensures dataPostagem == Some(date) && dataError == ""
    {
      dataPostagem := Some(date);
      dataError := "";
    }
  }
}
