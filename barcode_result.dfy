/**
 * The scan result handed back to the calling application
 * (src/wp8/BarcodeResultInfo.cs): an immutable (text, format) pair copied
 * from the decoder's result, serialised as exactly two data members.
 */
module BarcodeResult {
  import opened Wrappers

  /** The symbologies the decoding library reports (its BarcodeFormat enumeration). */
  datatype BarcodeFormat =
    | Aztec | Codabar | Code39 | Code93 | Code128 | DataMatrix | Ean8 | Ean13
    | Itf | MaxiCode | Pdf417 | QrCode | Rss14 | RssExpanded | UpcA | UpcE
    | UpcEanExtension | Msi | Plessey

  /** The decoder's result, reduced to the two parts the plugin reads. */
  datatype DecodeResult = DecodeResult(text: string, format: BarcodeFormat)

  /**
   * The textual name of a format, as the enumeration's ToString gives it;
   * it reads back as the same format.
   */
  function FormatName(f: BarcodeFormat): (name: string)
    ensures ParseFormat(name) == Some(f)
  {
    match f
    case Aztec => "AZTEC"
    case Codabar => "CODABAR"
    case Code39 => "CODE_39"
    case Code93 => "CODE_93"
    case Code128 => "CODE_128"
    case DataMatrix => "DATA_MATRIX"
    case Ean8 => "EAN_8"
    case Ean13 => "EAN_13"
    case Itf => "ITF"
    case MaxiCode => "MAXICODE"
    case Pdf417 => "PDF_417"
    case QrCode => "QR_CODE"
    case Rss14 => "RSS_14"
    case RssExpanded => "RSS_EXPANDED"
    case UpcA => "UPC_A"
    case UpcE => "UPC_E"
    case UpcEanExtension => "UPC_EAN_EXTENSION"
    case Msi => "MSI"
    case Plessey => "PLESSEY"
  }

  /** The inverse of FormatName: the format a name stands for, if any. */
  function ParseFormat(name: string): (f: Option<BarcodeFormat>)
  {
    match name
    case "AZTEC" => Some(Aztec)
    case "CODABAR" => Some(Codabar)
    case "CODE_39" => Some(Code39)
    case "CODE_93" => Some(Code93)
    case "CODE_128" => Some(Code128)
    case "DATA_MATRIX" => Some(DataMatrix)
    case "EAN_8" => Some(Ean8)
    case "EAN_13" => Some(Ean13)
    case "ITF" => Some(Itf)
    case "MAXICODE" => Some(MaxiCode)
    case "PDF_417" => Some(Pdf417)
    case "QR_CODE" => Some(QrCode)
    case "RSS_14" => Some(Rss14)
    case "RSS_EXPANDED" => Some(RssExpanded)
    case "UPC_A" => Some(UpcA)
    case "UPC_E" => Some(UpcE)
    case "UPC_EAN_EXTENSION" => Some(UpcEanExtension)
    case "MSI" => Some(Msi)
    case "PLESSEY" => Some(Plessey)
    case _ => None
  }

  /** Whatever reads back as a format is that format's name. */
  lemma ParsedNameIsFormatName(name: string)
    ensures ParseFormat(name).Some? ==> FormatName(ParseFormat(name).value) == name
  {
    match ParseFormat(name)
    case None =>
    case Some(f) =>
      match f
      case Aztec =>
      case Codabar =>
      case Code39 =>
      case Code93 =>
      case Code128 =>
      case DataMatrix =>
      case Ean8 =>
      case Ean13 =>
      case Itf =>
      case MaxiCode =>
      case Pdf417 =>
      case QrCode =>
      case Rss14 =>
      case RssExpanded =>
      case UpcA =>
      case UpcE =>
      case UpcEanExtension =>
      case Msi =>
      case Plessey =>
  }

  /** A format name is read back as the format it names, and only names of formats are read back. */
  lemma ParseFormatIsInverse(name: string, f: BarcodeFormat)
    ensures ParseFormat(name) == Some(f) <==> name == FormatName(f)
  {
    ParsedNameIsFormatName(name);
  }

  /** Distinct formats have distinct names, so the name loses nothing. */
  lemma FormatNameInjective(f: BarcodeFormat, g: BarcodeFormat)
    requires FormatName(f) == FormatName(g)
    ensures f == g
  {
    ParseFormatIsInverse(FormatName(f), f);
    ParseFormatIsInverse(FormatName(g), g);
  }

  /** Key of the serialised text member. */
  const TextKey := "text"
  /** Key of the serialised format member. */
  const FormatKey := "format"

  /**
   * The serialisable result. Both members have private setters in the source
   * and nothing sets them after construction, so a datatype value models it.
   * (The source spells the class name this way.)
   */
  datatype BarcodResultInfo = BarcodResultInfo(text: string, format: string)

  /** The constructor: copies the text and the format's name out of the decoder's result. */
  function FromBarcode(barcode: DecodeResult): (info: BarcodResultInfo)
    ensures info.text == barcode.text
    ensures ParseFormat(info.format) == Some(barcode.format)
  {
    ParseFormatIsInverse(FormatName(barcode.format), barcode.format);
    BarcodResultInfo(barcode.text, FormatName(barcode.format))
  }

  /** The data members the serialiser writes: exactly "text" and "format". */
  function DataMembers(info: BarcodResultInfo): (members: map<string, string>)
    ensures members.Keys == {TextKey, FormatKey}
  {
    map[TextKey := info.text, FormatKey := info.format]
  }

  /** Reads a result back from its data members; None unless exactly the two keys are present. */
  function FromDataMembers(members: map<string, string>): (info: Option<BarcodResultInfo>)
  {
    if members.Keys == {TextKey, FormatKey} then
      Some(BarcodResultInfo(members[TextKey], members[FormatKey]))
    else
      None
  }

  /** Serialising and reading back gives the same result. */
  lemma DataMembersRoundTrip(info: BarcodResultInfo)
    ensures FromDataMembers(DataMembers(info)) == Some(info)
  {
  }

  /** Any member map that reads back as a result is exactly that result's serialised form. */
  lemma DataMembersDetermined(members: map<string, string>, info: BarcodResultInfo)
    requires FromDataMembers(members) == Some(info)
    ensures DataMembers(info) == members
  {
    var m := DataMembers(info);
    assert m.Keys == members.Keys;
    forall k | k in m ensures m[k] == members[k] {
      assert k == TextKey || k == FormatKey;
    }
  }

  /** Two decoder results with the same serialised form are the same result. */
  lemma SerialisedFormDetermines(a: DecodeResult, b: DecodeResult)
    requires DataMembers(FromBarcode(a)) == DataMembers(FromBarcode(b))
    ensures a == b
  {
    var ma, mb := DataMembers(FromBarcode(a)), DataMembers(FromBarcode(b));
    assert ma[TextKey] == a.text && mb[TextKey] == b.text;
    assert ma[FormatKey] == FormatName(a.format) && mb[FormatKey] == FormatName(b.format);
    FormatNameInjective(a.format, b.format);
  }
}
