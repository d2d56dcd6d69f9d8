/**
 * The text a media card shows (`createMediaCardHTML` in src/media.js) and
 * the lookup a card click performs on the list the cards were rendered from.
 * The card markup itself is not modelled, only the three texts it carries.
 */
module Cards {
  import opened Wrappers
  import opened Json

  const NO_ID := "N/A"
  const NO_URL := "URL não fornecida"
  const NO_DESCRIPTION := "Descrição não fornecida"
  const URL_LIMIT: nat := 30
  const DESCRIPTION_LIMIT: nat := 50
  const ELLIPSIS := "..."

  /** The texts of one card: its `data-id`, the shortened URL and description. */
  datatype CardView = CardView(id: string, url: string, description: string)

  /** `t.length > n ? t.substring(0, n) + '...' : t` */
  function Shorten(t: string, n: nat): (r: string)
    ensures |t| <= n ==> r == t
    ensures |t| > n ==> |r| == n + |ELLIPSIS| && r[..n] == t[..n] && r[n..] == ELLIPSIS
    ensures |r| <= n + |ELLIPSIS|
  {
    if |t| > n then t[..n] + ELLIPSIS else t
  }

  /**
   * `length > n` where `length` is an object's `length` property: a number
   * compares as itself, a boolean as 0 or 1, a string of decimal digits as
   * the number it spells; `undefined`, `null` and any other value compare
   * false.
   */
  predicate LengthExceeds(length: Option<Json>, n: nat) {
    match length
    case Some(JNum(k)) => k > n
    case Some(JBool(b)) => (if b then 1 else 0) > n
    case Some(JStr(t)) => t != [] && (forall k :: 0 <= k < |t| ==> '0' <= t[k] <= '9') && DigitsValue(t) > n
    case _ => false
  }

  /**
   * The shortened text of an already defaulted field. Strings are cut; other
   * values are printed whole when `length > n` is false. When it is true for
   * a value that is not a string (an array longer than the limit, an object
   * with a large `length`), the missing `substring` throws a TypeError (None).
   */
  function FieldText(v: Json, n: nat): (r: Option<string>)
    ensures v.JStr? ==> r == Some(Shorten(v.s, n))
    ensures v.JArr? ==> (r.None? <==> |v.items| > n)
    ensures v.JObj? ==> (r.None? <==> LengthExceeds(Get(v, "length"), n))
    ensures !v.JArr? && !v.JObj? ==> r.Some?
    ensures r.Some? && !v.JStr? ==> r.value == Display(v)
  {
    match v
    case JStr(s) => Some(Shorten(s, n))
    case JArr(xs) => if |xs| > n then None else Some(Display(v))
    case JObj(_) => if LengthExceeds(Get(v, "length"), n) then None else Some(Display(v))
    case _ => Some(Display(v))
  }

  /** The card of one list element; None when rendering it throws. */
  function CardOf(nota: Json): (r: Option<CardView>)
    ensures nota.JNull? ==> r.None?
    ensures r.Some? <==> && !nota.JNull?
                         && FieldText(Or(Get(nota, "titulo"), JStr(NO_URL)), URL_LIMIT).Some?
                         && FieldText(Or(Get(nota, "descricao"), JStr(NO_DESCRIPTION)), DESCRIPTION_LIMIT).Some?
    ensures r.Some? ==> && r.value.url == FieldText(Or(Get(nota, "titulo"), JStr(NO_URL)), URL_LIMIT).value
                        && r.value.description == FieldText(Or(Get(nota, "descricao"), JStr(NO_DESCRIPTION)), DESCRIPTION_LIMIT).value
    ensures r.Some? && TruthyOpt(Get(nota, "id")) ==> r.value.id == Display(Get(nota, "id").value)
    ensures r.Some? && !TruthyOpt(Get(nota, "id")) ==> r.value.id == NO_ID
  {
    if nota.JNull? then None
    else
      var url := FieldText(Or(Get(nota, "titulo"), JStr(NO_URL)), URL_LIMIT);
      var description := FieldText(Or(Get(nota, "descricao"), JStr(NO_DESCRIPTION)), DESCRIPTION_LIMIT);
      if url.None? || description.None? then None
      else Some(CardView(Display(Or(Get(nota, "id"), JStr(NO_ID))), url.value, description.value))
  }

  /**
   * The URL and description texts of a card: the placeholder when the field
   * is missing or falsy, the string itself when it fits the limit, and
   * otherwise its first 30 (URL) or 50 (description) characters and "...".
   */
  lemma CardTextShaping(nota: Json, titulo: string, descricao: string)
    requires nota.JObj?
    requires Get(nota, "titulo") == Some(JStr(titulo)) || (titulo == "" && !TruthyOpt(Get(nota, "titulo")))
    requires Get(nota, "descricao") == Some(JStr(descricao)) || (descricao == "" && !TruthyOpt(Get(nota, "descricao")))
    ensures CardOf(nota).Some?
    ensures titulo == "" ==> CardOf(nota).value.url == NO_URL
    ensures 0 < |titulo| <= URL_LIMIT ==> CardOf(nota).value.url == titulo
    ensures |titulo| > URL_LIMIT ==> CardOf(nota).value.url == titulo[..URL_LIMIT] + ELLIPSIS
    ensures descricao == "" ==> CardOf(nota).value.description == NO_DESCRIPTION
    ensures 0 < |descricao| <= DESCRIPTION_LIMIT ==> CardOf(nota).value.description == descricao
    ensures |descricao| > DESCRIPTION_LIMIT ==> CardOf(nota).value.description == descricao[..DESCRIPTION_LIMIT] + ELLIPSIS
  {
    assert |NO_URL| <= URL_LIMIT;
    assert |NO_DESCRIPTION| <= DESCRIPTION_LIMIT;
  }

  /** The cards of a whole list, in order; None when any element fails to render. */
  function RenderCards(notas: seq<Json>): (r: Option<seq<CardView>>)
    ensures r.Some? <==> forall k :: 0 <= k < |notas| ==> CardOf(notas[k]).Some?
    ensures r.Some? ==> |r.value| == |notas| && forall k :: 0 <= k < |notas| ==> r.value[k] == CardOf(notas[k]).value
  {
    if notas == [] then Some([])
    else
      var head := CardOf(notas[0]);
      var tail := RenderCards(notas[1..]);
      if head.None? || tail.None? then None else Some([head.value] + tail.value)
  }

  /** `String(m.id)`: the identifier a card click compares with `data-id`. */
  function IdText(nota: Json): string {
    ToStr(Get(nota, "id"))
  }

  /** `notasList.find(m => String(m.id) === id)` */
  function FindNota(notas: seq<Json>, id: string): (r: Option<Json>)
    ensures r.Some? ==> exists k :: 0 <= k < |notas| && notas[k] == r.value && IdText(notas[k]) == id
                                   && forall j :: 0 <= j < k ==> IdText(notas[j]) != id
    ensures r.None? <==> forall k :: 0 <= k < |notas| ==> IdText(notas[k]) != id
  {
    if notas == [] then None
    else if IdText(notas[0]) == id then Some(notas[0])
    else
      var r := FindNota(notas[1..], id);
      assert r.Some? ==> forall j :: 1 <= j < |notas| ==> notas[1..][j - 1] == notas[j];
      r
  }

  /** A card whose element has a truthy id leads a click back to an element with that id. */
  lemma CardIdFound(notas: seq<Json>, k: nat)
    requires k < |notas| && CardOf(notas[k]).Some? && TruthyOpt(Get(notas[k], "id"))
    ensures FindNota(notas, CardOf(notas[k]).value.id).Some?
    ensures IdText(FindNota(notas, CardOf(notas[k]).value.id).value) == IdText(notas[k])
  {
    assert CardOf(notas[k]).value.id == IdText(notas[k]);
  }

  /**
   * An element whose id is falsy (0, "", null, missing) is rendered with
   * `data-id="N/A"`, and a click on it finds nothing unless some element's id
   * prints as "N/A".
   */
  lemma FalsyIdCardNotFound(notas: seq<Json>, k: nat)
    requires k < |notas| && CardOf(notas[k]).Some? && !TruthyOpt(Get(notas[k], "id"))
    requires forall j :: 0 <= j < |notas| ==> IdText(notas[j]) != NO_ID
    ensures CardOf(notas[k]).value.id == NO_ID
    ensures FindNota(notas, CardOf(notas[k]).value.id).None?
  {
    var r := FindNota(notas, NO_ID);
    assert r.None?;
  }
}
