/**
 * The comment manager screen: a form of five text fields, the comment being
 * edited, the list fetched from the comments endpoint, the error map that
 * validation produces, and the two-step delete (an id kept aside while a
 * confirmation modal is open). The outcome of every HTTP call is a
 * parameter of the method that makes it.
 */
module CrudApi {
  import opened Base
  import opened JsText

  /** The five text fields of a comment, as typed in the form and as sent in a request body. */
  datatype CommentFields = CommentFields(
    titulo: string, comentario: string, avaliacao: string, tutorialId: string, imagemUrl: string)

  const EmptyFields := CommentFields("", "", "", "", "")

  /** A comment as the endpoint returns it. */
  datatype Comment = Comment(id: string, fields: CommentFields)

  /** The keys of the error map. */
  datatype ErrorKey = TituloKey | ComentarioKey | AvaliacaoKey | ImagemUrlKey

  const TituloMessage := "Título deve ter entre 3 e 20 caracteres."
  const ComentarioMessage := "Comentário deve ter entre 3 e 100 caracteres."
  const AvaliacaoNotNumberMessage := "Avaliação deve ser um número entre 1 e 5."
  const AvaliacaoRangeMessage := "Avaliação será ajustada entre 1 e 5."
  const ImagemUrlMessage := "Imagem deve ser uma URL HTTPS válida ou base64."

  predicate StartsWith(s: string, prefix: string) {
    |prefix| <= |s| && s[..|prefix|] == prefix
  }

  predicate NoLineBreak(s: string) {
    forall i :: 0 <= i < |s| ==> !IsLineTerminator(s[i])
  }

  /** One of the extensions `png|jpg|jpeg|gif|webp` begins at index `k`. */
  predicate ExtensionAt(s: string, k: int)
    requires 0 <= k <= |s|
  {
    var rest := s[k..];
    StartsWith(rest, "png") || StartsWith(rest, "jpg") || StartsWith(rest, "jpeg")
      || StartsWith(rest, "gif") || StartsWith(rest, "webp")
  }

  /**
   * The first alternative of the image pattern, `^https:\/\/.*\.(?:png|…)`:
   * after `https://`, a run without line breaks, a dot, and an image extension.
   */
  ghost predicate HttpsImage(s: string) {
    StartsWith(s, "https://")
      && exists j :: 8 <= j < |s| && s[j] == '.' && ExtensionAt(s, j + 1) && NoLineBreak(s[8..j])
  }

  /** The ASCII letters of the class `[a-zA-Z]`. */
  predicate IsAsciiLetter(c: char) {
    ('a' <= c <= 'z') || ('A' <= c <= 'Z')
  }

  predicate AllAsciiLetters(s: string) {
    forall i :: 0 <= i < |s| ==> IsAsciiLetter(s[i])
  }

  /** The second alternative, `^data:image\/[a-zA-Z]+;base64,`. */
  ghost predicate DataImage(s: string) {
    StartsWith(s, "data:image/")
      && exists m :: 11 < m <= |s| && AllAsciiLetters(s[11..m]) && StartsWith(s[m..], ";base64,")
  }

  /** Scans `.*\.ext` from index `i`: some dot before the first line break is followed by an image extension. */
  function DotExtensionFrom(s: string, i: nat): bool
    requires i <= |s|
    decreases |s| - i
  {
    if i == |s| then false
    else if s[i] == '.' && ExtensionAt(s, i + 1) then true
    else if IsLineTerminator(s[i]) then false
    else DotExtensionFrom(s, i + 1)
  }

  /** The end of the run of ASCII letters that begins at index `i`. */
  function LetterRunEnd(s: string, i: nat): (m: nat)
    requires i <= |s|
    ensures i <= m <= |s| && AllAsciiLetters(s[i..m])
    ensures m < |s| ==> !IsAsciiLetter(s[m])
    decreases |s| - i
  {
    if i < |s| && IsAsciiLetter(s[i]) then
      var m := LetterRunEnd(s, i + 1);
      assert s[i..m] == [s[i]] + s[i + 1..m];
      m
    else i
  }

  /** `urlRegex.test(s)`: both alternatives are anchored at the start, neither at the end. */
  function ImageUrlMatches(s: string): bool {
    || (StartsWith(s, "https://") && DotExtensionFrom(s, 8))
    || (StartsWith(s, "data:image/") && var m := LetterRunEnd(s, 11); m > 11 && StartsWith(s[m..], ";base64,"))
  }

  lemma {:induction false} DotExtensionFromFinds(s: string, i: nat)
    requires i <= |s|
    ensures DotExtensionFrom(s, i) <==>
              exists j :: i <= j < |s| && s[j] == '.' && ExtensionAt(s, j + 1) && NoLineBreak(s[i..j])
    decreases |s| - i
  {
    if i < |s| {
      DotExtensionFromFinds(s, i + 1);
      if s[i] == '.' && ExtensionAt(s, i + 1) {
        assert NoLineBreak(s[i..i]);
      } else if IsLineTerminator(s[i]) {
        forall j | i < j < |s| ensures !NoLineBreak(s[i..j]) {
          assert s[i..j][0] == s[i];
        }
      } else {
        forall j | i < j < |s| && NoLineBreak(s[i + 1..j]) ensures NoLineBreak(s[i..j]) {
          assert s[i..j] == [s[i]] + s[i + 1..j];
        }
        forall j | i < j < |s| && NoLineBreak(s[i..j]) ensures NoLineBreak(s[i + 1..j]) {
          assert s[i + 1..j] == s[i..j][1..];
        }
      }
    }
  }

  /** A run of letters followed by `;` ends where the letters end. */
  lemma DataImageRun(s: string, m: int)
    requires 11 <= |s| && 11 < m <= |s| && AllAsciiLetters(s[11..m]) && StartsWith(s[m..], ";base64,")
    ensures m == LetterRunEnd(s, 11)
  {
    var r := LetterRunEnd(s, 11);
    assert s[m] == ';' by {
      assert s[m..][..8][0] == s[m];
    }
    assert forall k :: 11 <= k < m ==> IsAsciiLetter(s[k]) by {
      forall k | 11 <= k < m ensures IsAsciiLetter(s[k]) {
        assert s[11..m][k - 11] == s[k];
      }
    }
    assert forall k :: 11 <= k < r ==> IsAsciiLetter(s[k]) by {
      forall k | 11 <= k < r ensures IsAsciiLetter(s[k]) {
        assert s[11..r][k - 11] == s[k];
      }
    }
  }

  /** The scan is the regular expression: it accepts exactly the HTTPS image URLs and the base64 image data URIs. */
  lemma ImageUrlMatchesPattern(s: string)
    ensures ImageUrlMatches(s) <==> HttpsImage(s) || DataImage(s)
  {
    if StartsWith(s, "https://") {
      DotExtensionFromFinds(s, 8);
    }
    if DataImage(s) {
      var m :| 11 < m <= |s| && AllAsciiLetters(s[11..m]) && StartsWith(s[m..], ";base64,");
      DataImageRun(s, m);
    }
  }

  /** A PNG served over HTTPS passes the pattern. */
  lemma HttpsPngMatches()
    ensures ImageUrlMatches("https://a.b/c.png")
  {
    var https := "https://a.b/c.png";
    assert https[..8] == "https://";
    assert !ExtensionAt(https, 10) by {
      assert https[10..][0] == 'b';
    }
    assert ExtensionAt(https, 14) by {
      assert https[14..][..3] == "png";
    }
    assert DotExtensionFrom(https, 8);
  }

  /** A base64 JPEG data URI passes the pattern. */
  lemma DataJpegMatches()
    ensures ImageUrlMatches("data:image/jpeg;base64,AAAA")
  {
    var data := "data:image/jpeg;base64,AAAA";
    assert data[..11] == "data:image/";
    assert LetterRunEnd(data, 11) == 15 by {
      assert AllAsciiLetters(data[11..15]);
      assert !IsAsciiLetter(data[15]);
      DataImageRun(data, 15);
    }
    assert data[15..][..8] == ";base64,";
  }

  /** The same PNG over plain HTTP does not. */
  lemma HttpPngFails()
    ensures !ImageUrlMatches("http://a.b/c.png")
  {
    var http := "http://a.b/c.png";
    assert http[..8] != "https://" by {
      assert http[4] != "https://"[4];
    }
    assert http[..11] != "data:image/" by {
      assert http[0] != 'd';
    }
  }

  /** The rating rule: empty or NaN, then outside [1, 5]. */
  function RatingError(avaliacao: string): (e: Option<string>)
    ensures e == Some(AvaliacaoNotNumberMessage) <==> avaliacao == "" || ParseInt(avaliacao).None?
    ensures e == Some(AvaliacaoRangeMessage) <==>
              avaliacao != "" && ParseInt(avaliacao).Some? && !(1 <= ParseInt(avaliacao).value <= 5)
    ensures e.None? <==> ParseInt(avaliacao).Some? && 1 <= ParseInt(avaliacao).value <= 5
  {
    var n := ParseInt(avaliacao);
    if avaliacao == "" || n.None? then Some(AvaliacaoNotNumberMessage)
    else if n.value < 1 || n.value > 5 then Some(AvaliacaoRangeMessage)
    else None
  }

  /** `validarFormulario`'s `newErrors`: one entry per failed rule, inserted in the order of the checks. */
  function ValidationErrors(f: CommentFields): (errors: map<ErrorKey, string>)
    ensures TituloKey in errors <==> |f.titulo| < 3 || |f.titulo| > 20
    ensures ComentarioKey in errors <==> |f.comentario| < 3 || |f.comentario| > 100
    ensures AvaliacaoKey in errors <==> RatingError(f.avaliacao).Some?
    ensures ImagemUrlKey in errors <==> !(HttpsImage(f.imagemUrl) || DataImage(f.imagemUrl))
    ensures TituloKey in errors ==> errors[TituloKey] == TituloMessage
    ensures ComentarioKey in errors ==> errors[ComentarioKey] == ComentarioMessage
    ensures AvaliacaoKey in errors ==> errors[AvaliacaoKey] == RatingError(f.avaliacao).value
    ensures ImagemUrlKey in errors ==> errors[ImagemUrlKey] == ImagemUrlMessage
  {
    ImageUrlMatchesPattern(f.imagemUrl);
    var e0: map<ErrorKey, string> := map[];
    var e1 := if f.titulo == "" || |f.titulo| < 3 || |f.titulo| > 20 then e0[TituloKey := TituloMessage] else e0;
    var e2 := if f.comentario == "" || |f.comentario| < 3 || |f.comentario| > 100
              then e1[ComentarioKey := ComentarioMessage] else e1;
    var rating := RatingError(f.avaliacao);
    var e3 := if rating.Some? then e2[AvaliacaoKey := rating.value] else e2;
    if f.imagemUrl == "" || !ImageUrlMatches(f.imagemUrl) then e3[ImagemUrlKey := ImagemUrlMessage] else e3
  }

  /** `Math.max(1, Math.min(5, n))`; `None` is NaN, which both functions pass on. */
  function ClampRating(n: Option<int>): (r: Option<int>)
    ensures n.None? <==> r.None?
    ensures r.Some? ==> 1 <= r.value <= 5
    ensures n.Some? && 1 <= n.value <= 5 ==> r == n
    ensures n.Some? && n.value > 5 ==> r == Some(5)
    ensures n.Some? && n.value < 1 ==> r == Some(1)
  {
    if n.None? then None
    else if n.value > 5 then Some(5)
    else if n.value < 1 then Some(1)
    else n
  }

  /** `avaliacaoCorrigida.toString()`. */
  function RatingText(n: Option<int>): string {
    if n.None? then "NaN" else IntToString(n.value)
  }

  /** The `dados` object that `handleCreateOrUpdate` sends: the fields as typed, but for the clamped rating's text. */
  function RequestBody(f: CommentFields): (r: CommentFields)
    ensures r.(avaliacao := f.avaliacao) == f
  {
    f.(avaliacao := RatingText(ClampRating(ParseInt(f.avaliacao))))
  }

  /** The rating text sent reads back through `parseInt` as the clamped rating, NaN when the typed one is not a number. */
  lemma RequestRatingReadsBack(f: CommentFields)
    ensures ParseInt(RequestBody(f).avaliacao) == ClampRating(ParseInt(f.avaliacao))
  {
    var n := ClampRating(ParseInt(f.avaliacao));
    if n.Some? {
      ParseIntOfIntToString(n.value);
    } else {
      assert !IsDigit("NaN"[0]);
    }
  }

  /** A rating outside [1, 5] leaves an error, so validation fails and nothing is submitted. */
  lemma OutOfRangeRatingBlocks(f: CommentFields, n: int)
    requires ParseInt(f.avaliacao) == Some(n) && (n < 1 || n > 5)
    ensures AvaliacaoKey in ValidationErrors(f) && ValidationErrors(f)[AvaliacaoKey] == AvaliacaoRangeMessage
    ensures ValidationErrors(f) != map[]
  {
    assert f.avaliacao != "";
  }

  /**
   * Every form that passes validation has a rating in [1, 5], so the clamp
   * leaves it alone: the body carries the rating's own decimal text, and that
   * text reads back as the rating typed.
   */
  lemma SubmittedRatingIsTyped(f: CommentFields)
    requires ValidationErrors(f) == map[]
    ensures ParseInt(f.avaliacao).Some? && 1 <= ParseInt(f.avaliacao).value <= 5
    ensures ClampRating(ParseInt(f.avaliacao)) == ParseInt(f.avaliacao)
    ensures RequestBody(f).avaliacao == IntToString(ParseInt(f.avaliacao).value)
    ensures ParseInt(RequestBody(f).avaliacao) == ParseInt(f.avaliacao)
    ensures RequestBody(f).(avaliacao := f.avaliacao) == f
  {
    assert AvaliacaoKey !in ValidationErrors(f);
    ParseIntOfIntToString(ParseInt(f.avaliacao).value);
  }

  /** The HTTP request a handler issues: the URL is the endpoint, or the endpoint followed by `/<id>`. */
  datatype Request = NoRequest | Post(body: CommentFields) | Put(id: string, body: CommentFields) | Delete(id: string)

  class CrudComments {
    var comentarios: seq<Comment>
    var titulo: string
    var comentario: string
    var avaliacao: string
    var tutorialId: string
    var imagemUrl: string
    var editingComentario: Option<Comment>
    var modalVisible: bool
    var comentarioIdParaExcluir: Option<string>
    var errors: map<ErrorKey, string>

    function Form(): CommentFields
      reads this`titulo, this`comentario, this`avaliacao, this`tutorialId, this`imagemUrl
    {
      CommentFields(titulo, comentario, avaliacao, tutorialId, imagemUrl)
    }

    /** The screen as first rendered, before the fetch on mount. */
    constructor ()
      ensures comentarios == [] && Form() == EmptyFields && editingComentario.None?
      ensures !modalVisible && comentarioIdParaExcluir.None? && errors == map[]
    {
      comentarios := [];
      titulo, comentario, avaliacao, tutorialId, imagemUrl := "", "", "", "", "";
      editingComentario := None;
      modalVisible := false;
      comentarioIdParaExcluir := None;
      errors := map[];
    }

    /** `buscarComentarios()`: a response replaces the list wholesale; a failed fetch alerts and leaves it alone. */
    method BuscarComentarios(response: Option<seq<Comment>>) returns (alerted: bool)
      modifies this`comentarios
      ensures comentarios == (if response.Some? then response.value else old(comentarios))
      ensures alerted <==> response.None?
    {
      if response.Some? {
        comentarios := response.value;
        alerted := false;
      } else {
        alerted := true;
      }
    }

    /** `validarFormulario()`: the error map becomes exactly the new one; the form is valid when it is empty. */
    method ValidarFormulario() returns (ok: bool)
      modifies this`errors
      ensures errors == ValidationErrors(Form())
      ensures ok <==> errors == map[]
    {
      var newErrors := ValidationErrors(Form());
      errors := newErrors;
      ok := |newErrors| == 0;
    }

    /** `resetFormulario()`: empty fields, no comment being edited, no errors. */
    method ResetFormulario()
      modifies this`titulo, this`comentario, this`avaliacao, this`tutorialId, this`imagemUrl
      modifies this`editingComentario, this`errors
      ensures Form() == EmptyFields && editingComentario.None? && errors == map[]
    {
      titulo, comentario, avaliacao, tutorialId, imagemUrl := "", "", "", "", "";
      editingComentario := None;
      errors := map[];
    }

    /**
     * `handleCreateOrUpdate()`: an invalid form sends nothing. A valid one is
     * sent as a `PUT` of the comment being edited or a `POST` of a new one;
     * when the request succeeds the list is fetched again and the form reset,
     * when it fails the form stays as it was.
     */
    method HandleCreateOrUpdate(requestOk: bool, refetch: Option<seq<Comment>>) returns (request: Request)
      modifies this
      ensures errors == ValidationErrors(old(Form()))
      ensures errors != map[] ==> request == NoRequest
      ensures errors == map[] ==>
                request == (if old(editingComentario).Some? then Put(old(editingComentario).value.id, RequestBody(old(Form())))
                            else Post(RequestBody(old(Form()))))
      ensures request != NoRequest && requestOk ==>
                && Form() == EmptyFields && editingComentario.None?
                && comentarios == (if refetch.Some? then refetch.value else old(comentarios))
      ensures request == NoRequest || !requestOk ==>
                Form() == old(Form()) && editingComentario == old(editingComentario) && comentarios == old(comentarios)
      ensures modalVisible == old(modalVisible) && comentarioIdParaExcluir == old(comentarioIdParaExcluir)
    {
      var fields := Form();
      var valid := ValidarFormulario();
      if !valid {
        return NoRequest;
      }
      var dados := RequestBody(fields);
      if editingComentario.Some? {
        request := Put(editingComentario.value.id, dados);
      } else {
        request := Post(dados);
      }
      if requestOk {
        var _ := BuscarComentarios(refetch);
        ResetFormulario();
      }
    }

    /** `handleCarregar(c)`: copies the comment into the form, marks it as edited, clears the errors. */
    method HandleCarregar(c: Comment)
      modifies this`titulo, this`comentario, this`avaliacao, this`tutorialId, this`imagemUrl
      modifies this`editingComentario, this`errors
      ensures Form() == c.fields && editingComentario == Some(c) && errors == map[]
    {
      titulo := c.fields.titulo;
      comentario := c.fields.comentario;
      avaliacao := c.fields.avaliacao;
      tutorialId := c.fields.tutorialId;
      imagemUrl := c.fields.imagemUrl;
      editingComentario := Some(c);
      errors := map[];
    }

    /** `confirmarExclusao(id)`: keeps the id aside and opens the modal; nothing is deleted yet. */
    method ConfirmarExclusao(id: string)
      modifies this`comentarioIdParaExcluir, this`modalVisible
      ensures comentarioIdParaExcluir == Some(id) && modalVisible
    {
      comentarioIdParaExcluir := Some(id);
      modalVisible := true;
    }

    /** The modal's cancel button and its close request: the modal closes, the id stays. */
    method CancelarExclusao()
      modifies this`modalVisible
      ensures !modalVisible
    {
      modalVisible := false;
    }

    /**
     * `excluirComentario()`: deletes the id kept aside (the text `null` when
     * there is none). On success the list is fetched again, the modal
     * closes and the id is dropped; on failure both stay.
     */
    method ExcluirComentario(requestOk: bool, refetch: Option<seq<Comment>>) returns (request: Request)
      modifies this`comentarios, this`modalVisible, this`comentarioIdParaExcluir
      ensures request == Delete(if old(comentarioIdParaExcluir).Some? then old(comentarioIdParaExcluir).value else "null")
      ensures requestOk ==>
                && !modalVisible && comentarioIdParaExcluir.None?
                && comentarios == (if refetch.Some? then refetch.value else old(comentarios))
      ensures !requestOk ==>
                && modalVisible == old(modalVisible) && comentarioIdParaExcluir == old(comentarioIdParaExcluir)
                && comentarios == old(comentarios)
    {
      request := Delete(if comentarioIdParaExcluir.Some? then comentarioIdParaExcluir.value else "null");
      if requestOk {
        var _ := BuscarComentarios(refetch);
        modalVisible := false;
        comentarioIdParaExcluir := None;
      }
    }

    /** Typing in the title field; the errors stay until the next validation. */
    method SetTitulo(text: string)
      modifies this`titulo
      ensures titulo == text
    {
      titulo := text;
    }

    method SetComentario(text: string)
      modifies this`comentario
      ensures comentario == text
    {
      comentario := text;
    }

    method SetAvaliacao(text: string)
      modifies this`avaliacao
      ensures avaliacao == text
    {
      avaliacao := text;
    }

    method SetTutorialId(text: string)
      modifies this`tutorialId
      ensures tutorialId == text
    {
      tutorialId := text;
    }

    method SetImagemUrl(text: string)
      modifies this`imagemUrl
      ensures imagemUrl == text
    {
      imagemUrl := text;
    }
  }
}
