/**
 * The service-invoice payload that `jsonNotaFiscal` builds from one approved
 * transaction, as a typed record. Each nested datatype is one nested object
 * of the payload; `None` in an `Option` field is a key that is present with
 * the value null.
 */
module InvoicePayload {
  import opened Wrappers
  import opened PhpTrim

  /** The columns the lookup query selects; every one but `id` may be NULL. */
  datatype Transaction = Transaction(
    id: string,
    nome: Option<string>,
    sobrenome: Option<string>,
    cpf: Option<string>,
    email: Option<string>,
    telefone: Option<string>,
    descricao: Option<string>,
    valor: Option<real>)

  datatype City = City(name: Option<string>, state: Option<string>, code: Option<string>)

  datatype Address = Address(
    street: Option<string>,
    district: Option<string>,
    postalCode: Option<string>,
    number: Option<string>,
    additionalInformation: Option<string>,
    city: City,
    country: string)

  datatype Receiver = Receiver(
    name: string,
    federalTaxNumber: Option<string>,
    stateTaxNumber: Option<string>,
    cityTaxNumber: Option<string>,
    email: Option<string>,
    phoneNumber: Option<string>,
    address: Address)

  /** The `total` object: amounts, rates and withholding flags. */
  datatype Total = Total(
    invoiceAmount: real,
    netAmount: real,
    issBaseTax: real,
    irRate: real,
    csllRate: real,
    pisRate: real,
    cofinsRate: real,
    inssRate: real,
    issRate: real,
    issAmount: real,
    discountUnconditionedAmount: real,
    discountConditionedAmount: real,
    irAmount: real,
    pisAmount: real,
    cofinsAmount: real,
    inssAmount: real,
    csllAmount: real,
    othersAmount: real,
    deductionsAmount: real,
    irWithheld: bool,
    issWithheld: bool,
    cofinsWithheld: bool,
    inssWithheld: bool,
    csllWithheld: bool,
    pisWithheld: bool,
    ibsStateRate: real,
    ibsCityRate: real,
    cbsRate: real,
    ibsCbsBaseTax: real,
    ibsStateAmount: real,
    ibsCityAmount: real,
    ibsAmount: real,
    cbsAmount: real)

  datatype Location = Location(code: Option<string>, name: Option<string>, state: Option<string>)

  datatype IbsCbs = IbsCbs(
    cst: int,
    classification: int,
    operationIndicatorCode: Option<string>,
    isPersonalUse: bool)

  /** The `municipalBenefit` object; `kind` is its key "type". */
  datatype MunicipalBenefit = MunicipalBenefit(kind: Option<string>, identification: Option<string>)

  datatype National = National(municipalBenefit: MunicipalBenefit)

  datatype Invoice = Invoice(
    integrationId: string,
    issuedOn: string,
    effectiveDate: string,
    receiver: Receiver,
    number: string,
    status: string,
    additionalInformation: Option<string>,
    sendEmailToCustomer: bool,
    description: Option<string>,
    batchNumber: int,
    rpsNumber: int,
    rpsSeries: int,
    cnaeCode: Option<string>,
    nbsCode: Option<string>,
    federalServiceCode: Option<string>,
    nationalTaxationCode: Option<string>,
    cityServiceCode: Option<string>,
    taxationType: Option<string>,
    cstPisCofins: Option<string>,
    total: Total,
    location: Location,
    ibsCbs: IbsCbs,
    national: National)

  /** PHP's string conversion of a nullable column: null becomes "". */
  function Text(v: Option<string>): (r: string)
    ensures v.Some? ==> r == v.value
    ensures v.None? ==> r == ""
  {
    v.GetOr("")
  }

  /** PHP's `(float)` cast of the nullable `valor` column: null becomes 0.0. */
  function Amount(v: Option<real>): (r: real)
    ensures v.Some? ==> r == v.value
    ensures v.None? ==> r == 0.0
  {
    v.GetOr(0.0)
  }

  /** The receiver's name: first and last name joined by one space, then trimmed. */
  function ReceiverName(t: Transaction): (r: string)
    ensures Trimmed(r)
  {
    Trim(Text(t.nome) + " " + Text(t.sobrenome))
  }

  /** Every tax, rate, discount and deduction field is zero and nothing is withheld. */
  predicate NoTaxes(x: Total) {
    x.issBaseTax == 0.0 && x.irRate == 0.0 && x.csllRate == 0.0 && x.pisRate == 0.0
    && x.cofinsRate == 0.0 && x.inssRate == 0.0 && x.issRate == 0.0 && x.issAmount == 0.0
    && x.discountUnconditionedAmount == 0.0 && x.discountConditionedAmount == 0.0
    && x.irAmount == 0.0 && x.pisAmount == 0.0 && x.cofinsAmount == 0.0
    && x.inssAmount == 0.0 && x.csllAmount == 0.0 && x.othersAmount == 0.0
    && x.deductionsAmount == 0.0
    && !x.irWithheld && !x.issWithheld && !x.cofinsWithheld
    && !x.inssWithheld && !x.csllWithheld && !x.pisWithheld
    && x.ibsStateRate == 0.0 && x.ibsCityRate == 0.0 && x.cbsRate == 0.0
    && x.ibsCbsBaseTax == 0.0 && x.ibsStateAmount == 0.0 && x.ibsCityAmount == 0.0
    && x.ibsAmount == 0.0 && x.cbsAmount == 0.0
  }

  /** No identity or address data beyond name, e-mail and phone: all present and null. */
  predicate AnonymousAddress(r: Receiver) {
    r.federalTaxNumber.None? && r.stateTaxNumber.None? && r.cityTaxNumber.None?
    && r.address.street.None? && r.address.district.None? && r.address.postalCode.None?
    && r.address.number.None? && r.address.additionalInformation.None?
    && r.address.city == City(None, None, None)
    && r.address.country == "BRA"
  }

  /** No service classification codes are sent: all present and null. */
  predicate NoServiceCodes(p: Invoice) {
    p.cnaeCode.None? && p.nbsCode.None? && p.federalServiceCode.None?
    && p.nationalTaxationCode.None? && p.cityServiceCode.None?
    && p.taxationType.None? && p.cstPisCofins.None?
  }

  /**
   * The fixed part of every payload, whatever the transaction: a freshly
   * created invoice e-mailed to the customer, outside any batch or RPS series,
   * with no place of service, tax-reform codes zero for personal use, and no
   * municipal benefit.
   */
  predicate FixedFields(p: Invoice) {
    p.status == "created" && p.additionalInformation.None? && p.sendEmailToCustomer
    && p.batchNumber == 0 && p.rpsNumber == 0 && p.rpsSeries == 0
    && p.location == Location(None, None, None)
    && p.ibsCbs == IbsCbs(0, 0, None, true)
    && p.national == National(MunicipalBenefit(None, None))
  }

  /**
   * `jsonNotaFiscal`, before serialisation. The two timestamps are what the
   * two calls to the clock return.
   */
  function BuildInvoice(t: Transaction, issuedOn: string, effectiveDate: string): (p: Invoice)
    ensures p.integrationId == t.id && p.number == t.id
    ensures p.issuedOn == issuedOn && p.effectiveDate == effectiveDate
    ensures p.receiver.name == ReceiverName(t) && Trimmed(p.receiver.name)
    ensures p.receiver.email == t.email && p.receiver.phoneNumber == t.telefone
    ensures p.description == t.descricao
    ensures p.total.invoiceAmount == Amount(t.valor) && p.total.netAmount == Amount(t.valor)
    ensures NoTaxes(p.total)
    ensures AnonymousAddress(p.receiver)
    ensures NoServiceCodes(p)
    ensures FixedFields(p)
  {
    Invoice(
      integrationId := t.id,
      issuedOn := issuedOn,
      effectiveDate := effectiveDate,
      receiver := Receiver(
        name := ReceiverName(t),
        federalTaxNumber := None,
        stateTaxNumber := None,
        cityTaxNumber := None,
        email := t.email,
        phoneNumber := t.telefone,
        address := Address(
          street := None,
          district := None,
          postalCode := None,
          number := None,
          additionalInformation := None,
          city := City(None, None, None),
          country := "BRA")),
      number := t.id,
      status := "created",
      additionalInformation := None,
      sendEmailToCustomer := true,
      description := t.descricao,
      batchNumber := 0,
      rpsNumber := 0,
      rpsSeries := 0,
      cnaeCode := None,
      nbsCode := None,
      federalServiceCode := None,
      nationalTaxationCode := None,
      cityServiceCode := None,
      taxationType := None,
      cstPisCofins := None,
      total := Total(
        invoiceAmount := Amount(t.valor),
        netAmount := Amount(t.valor),
        issBaseTax := 0.0,
        irRate := 0.0,
        csllRate := 0.0,
        pisRate := 0.0,
        cofinsRate := 0.0,
        inssRate := 0.0,
        issRate := 0.0,
        issAmount := 0.0,
        discountUnconditionedAmount := 0.0,
        discountConditionedAmount := 0.0,
        irAmount := 0.0,
        pisAmount := 0.0,
        cofinsAmount := 0.0,
        inssAmount := 0.0,
        csllAmount := 0.0,
        othersAmount := 0.0,
        deductionsAmount := 0.0,
        irWithheld := false,
        issWithheld := false,
        cofinsWithheld := false,
        inssWithheld := false,
        csllWithheld := false,
        pisWithheld := false,
        ibsStateRate := 0.0,
        ibsCityRate := 0.0,
        cbsRate := 0.0,
        ibsCbsBaseTax := 0.0,
        ibsStateAmount := 0.0,
        ibsCityAmount := 0.0,
        ibsAmount := 0.0,
        cbsAmount := 0.0),
      location := Location(None, None, None),
      ibsCbs := IbsCbs(0, 0, None, true),
      national := National(MunicipalBenefit(None, None)))
  }

  /**
   * Documents which inputs matter. The payload depends only on the id, the two names up to trimming of
   * their join, e-mail, phone, description and amount. In particular the
   * selected `cpf` column never reaches it.
   */
  lemma PayloadDeterminedBy(t1: Transaction, t2: Transaction, issuedOn: string, effectiveDate: string)
    requires t1.id == t2.id && ReceiverName(t1) == ReceiverName(t2)
    requires t1.email == t2.email && t1.telefone == t2.telefone && t1.descricao == t2.descricao
    requires Amount(t1.valor) == Amount(t2.valor)
    ensures BuildInvoice(t1, issuedOn, effectiveDate) == BuildInvoice(t2, issuedOn, effectiveDate)
  {
  }

  /** The two timestamps agree exactly when the two clock readings do. */
  lemma SameTimestamps(t: Transaction, issuedOn: string, effectiveDate: string)
    ensures var p := BuildInvoice(t, issuedOn, effectiveDate);
      p.issuedOn == p.effectiveDate <==> issuedOn == effectiveDate
  {
  }

  /** With a blank last name the receiver is just the trimmed first name. */
  lemma NameWithBlankSurname(t: Transaction)
    requires AllTrimSpace(Text(t.sobrenome))
    ensures ReceiverName(t) == Trim(Text(t.nome))
  {
    var w := " " + Text(t.sobrenome);
    assert AllTrimSpace(w) by {
      assert IsTrimSpace(w[0]);
      assert forall k :: 1 <= k < |w| ==> w[k] == Text(t.sobrenome)[k - 1];
    }
    assert Text(t.nome) + " " + Text(t.sobrenome) == Text(t.nome) + w;
    TrimAppendSpace(Text(t.nome), w);
  }

  /** With a blank first name the receiver is just the trimmed last name. */
  lemma NameWithBlankFirstName(t: Transaction)
    requires AllTrimSpace(Text(t.nome))
    ensures ReceiverName(t) == Trim(Text(t.sobrenome))
  {
    var w := Text(t.nome) + " ";
    assert AllTrimSpace(w) by {
      assert IsTrimSpace(w[|w| - 1]);
      assert forall k :: 0 <= k < |w| - 1 ==> w[k] == Text(t.nome)[k];
    }
    assert Text(t.nome) + " " + Text(t.sobrenome) == w + Text(t.sobrenome);
    TrimPrependSpace(w, Text(t.sobrenome));
  }

  /**
   * With both names present, the receiver is the trimmed first name and the
   * trimmed last name with everything between them kept: the first name's
   * trailing and the last name's leading white space around the joining
   * space. Inner white space is not collapsed.
   */
  lemma NameWithBothNames(t: Transaction)
    requires !AllTrimSpace(Text(t.nome)) && !AllTrimSpace(Text(t.sobrenome))
    ensures var a, b := Text(t.nome), Text(t.sobrenome);
      ReceiverName(t) == Trim(a) + (RightMargin(a) + " " + LeftMargin(b)) + Trim(b)
  {
    TrimJoin(Text(t.nome), " ", Text(t.sobrenome));
  }
  /** The transaction of the worked example: "Ana" "Silva", 150.5. */
  function AnaSilva(): Transaction {
    Transaction("TX-ROW-1", Some("Ana"), Some("Silva"), None,
                Some("ana@example.com"), None, Some("Serviço"), Some(150.5))
  }

  /** The example's payload charges 150.5 to the receiver "Ana Silva". */
  lemma AnaSilvaPayload(issuedOn: string, effectiveDate: string)
    ensures var p := BuildInvoice(AnaSilva(), issuedOn, effectiveDate);
      p.receiver.name == "Ana Silva" && p.total.invoiceAmount == 150.5
      && p.description == Some("Serviço")
  {
    var s := "Ana Silva";
    assert Text(Some("Ana")) + " " + Text(Some("Silva")) == s;
    TrimAt(s, 0, |s|);
    assert s[0..|s|] == s;
  }

  /**
   * A first name stored with a trailing blank keeps it: trim does not
   * collapse the two spaces at the joint.
   */
  lemma TrailingBlankInFirstNameKept()
    ensures ReceiverName(AnaSilva().(nome := Some("Ana "))) == "Ana  Silva"
  {
    var s := "Ana  Silva";
    assert Text(Some("Ana ")) + " " + Text(Some("Silva")) == s;
    TrimAt(s, 0, |s|);
    assert s[0..|s|] == s;
  }
}
