/** The error codes a receipt can carry (app/envelope/error_codes.py), with their wire values. */
module ErrorCodes {
  import opened Wrappers
  import opened Bytes

  datatype ErrorCode =
    | MissingFrom
    | MissingTo
    | MissingInputFormat
    | MissingInputData
    | MissingTransactionSet
    | InvalidFrom
    | InvalidTo
    | InvalidInputFormat
    | InvalidTransactionSet
    | NoParametersSupplied
    | InvalidVersion
    | MissingVersion
    | InvalidReceiptSecuritySelection
    | MissingReceiptDispositionTo
    | InvalidReceiptDispositionTo
    | MissingReceiptReportType
    | InvalidReceiptReportType
    | MissingReceiptSecuritySelection
    | RefnumNotPresent
    | RefnumOrigNotPresent
    | DuplicateRefnum
    | PublicKeyInvalid
    | FileNotEncrypted
    | EncryptedFileTruncated
    | SignatureNotMatched
    | DecryptionError
    | SenderNotAssociated
    | PackageFormatNotRecognized
    | DataSetExchangeNotEstablished
    | SystemError
    | TransactionSetNotMutuallyAgreed
    | MissingReceiptSecuritySelectionWarning
    | RefnumReceivedNotMutuallyAgreed
    | RefnumOrigReceivedNotMutuallyAgreed
    | DuplicateDigest
    | WeakAlgorithm
    | SinkFailure
    | Unauthenticated

  function Value(code: ErrorCode): Bytes {
    match code
    case MissingFrom => "EEDM100"
    case MissingTo => "EEDM101"
    case MissingInputFormat => "EEDM102"
    case MissingInputData => "EEDM103"
    case MissingTransactionSet => "EEDM104"
    case InvalidFrom => "EEDM105"
    case InvalidTo => "EEDM106"
    case InvalidInputFormat => "EEDM107"
    case InvalidTransactionSet => "EEDM108"
    case NoParametersSupplied => "EEDM109"
    case InvalidVersion => "EEDM110"
    case MissingVersion => "EEDM111"
    case InvalidReceiptSecuritySelection => "EEDM113"
    case MissingReceiptDispositionTo => "EEDM114"
    case InvalidReceiptDispositionTo => "EEDM115"
    case MissingReceiptReportType => "EEDM116"
    case InvalidReceiptReportType => "EEDM117"
    case MissingReceiptSecuritySelection => "EEDM118"
    case RefnumNotPresent => "EEDM119"
    case RefnumOrigNotPresent => "EEDM120"
    case DuplicateRefnum => "EEDM121"
    case PublicKeyInvalid => "EEDM601"
    case FileNotEncrypted => "EEDM602"
    case EncryptedFileTruncated => "EEDM603"
    case SignatureNotMatched => "EEDM604"
    case DecryptionError => "EEDM699"
    case SenderNotAssociated => "EEDM701"
    case PackageFormatNotRecognized => "EEDM702"
    case DataSetExchangeNotEstablished => "EEDM703"
    case SystemError => "EEDM999"
    case TransactionSetNotMutuallyAgreed => "WEDM100"
    case MissingReceiptSecuritySelectionWarning => "WEDM103"
    case RefnumReceivedNotMutuallyAgreed => "WEDM104"
    case RefnumOrigReceivedNotMutuallyAgreed => "WEDM105"
    case DuplicateDigest => "GWX-DUPLICATE-DIGEST"
    case WeakAlgorithm => "GWX-WEAK-ALGO"
    case SinkFailure => "GWX-SINK-FAILURE"
    case Unauthenticated => "GWX-UNAUTHENTICATED"
  }

  /** Upper-case letters, digits and hyphens. */
  predicate CodeText(s: Bytes) {
    s != [] && forall c :: c in s ==> 'A' <= c <= 'Z' || '0' <= c <= '9' || c == '-'
  }

  lemma CodesAreCodeText(code: ErrorCode)
    ensures CodeText(Value(code))
  {
    if EnvelopeCode(code) {
      EnvelopeCodes(code);
    } else if PackageCode(code) {
      PackageCodes(code);
    } else {
      OtherCodes(code);
    }
    hide Value, CodeText;
  }

  /** EEDM1xx: the envelope's fields. */
  predicate EnvelopeCode(code: ErrorCode) {
    code.MissingFrom? || code.MissingTo? || code.MissingInputFormat? || code.MissingInputData?
    || code.MissingTransactionSet?
    || code.InvalidFrom? || code.InvalidTo? || code.InvalidInputFormat? || code.InvalidTransactionSet?
    || code.NoParametersSupplied? || code.InvalidVersion? || code.MissingVersion?
  }

  /** The rest of EEDM1xx, and EEDM6xx. */
  predicate PackageCode(code: ErrorCode) {
    code.InvalidReceiptSecuritySelection? || code.MissingReceiptDispositionTo? || code.InvalidReceiptDispositionTo?
    || code.MissingReceiptReportType? || code.InvalidReceiptReportType? || code.MissingReceiptSecuritySelection?
    || code.RefnumNotPresent? || code.RefnumOrigNotPresent? || code.DuplicateRefnum? || code.PublicKeyInvalid?
    || code.FileNotEncrypted? || code.EncryptedFileTruncated? || code.SignatureNotMatched? || code.DecryptionError?
  }

  lemma EnvelopeCodes(code: ErrorCode)
    requires EnvelopeCode(code)
    ensures CodeText(Value(code))
  {
  }

  lemma PackageCodes(code: ErrorCode)
    requires PackageCode(code)
    ensures CodeText(Value(code))
  {
  }

  lemma OtherCodes(code: ErrorCode)
    requires !EnvelopeCode(code) && !PackageCode(code)
    ensures CodeText(Value(code))
  {
  }

  // ------------------------------------------------------------------
  // Reading a wire value back
  // ------------------------------------------------------------------

  function DigitAt(s: Bytes, i: nat): int
    requires i < |s|
  {
    s[i] as int - '0' as int
  }

  /** The number at the end of `EEDM...` and `WEDM...`. */
  function NumberOf(s: Bytes): int
    requires |s| >= 7
  {
    100 * DigitAt(s, 4) + 10 * DigitAt(s, 5) + DigitAt(s, 6)
  }

  function ErrorNumbered(n: int): Option<ErrorCode> {
    match n
    case 100 => Some(MissingFrom)
    case 101 => Some(MissingTo)
    case 102 => Some(MissingInputFormat)
    case 103 => Some(MissingInputData)
    case 104 => Some(MissingTransactionSet)
    case 105 => Some(InvalidFrom)
    case 106 => Some(InvalidTo)
    case 107 => Some(InvalidInputFormat)
    case 108 => Some(InvalidTransactionSet)
    case 109 => Some(NoParametersSupplied)
    case 110 => Some(InvalidVersion)
    case 111 => Some(MissingVersion)
    case 113 => Some(InvalidReceiptSecuritySelection)
    case 114 => Some(MissingReceiptDispositionTo)
    case 115 => Some(InvalidReceiptDispositionTo)
    case 116 => Some(MissingReceiptReportType)
    case 117 => Some(InvalidReceiptReportType)
    case 118 => Some(MissingReceiptSecuritySelection)
    case 119 => Some(RefnumNotPresent)
    case 120 => Some(RefnumOrigNotPresent)
    case 121 => Some(DuplicateRefnum)
    case 601 => Some(PublicKeyInvalid)
    case 602 => Some(FileNotEncrypted)
    case 603 => Some(EncryptedFileTruncated)
    case 604 => Some(SignatureNotMatched)
    case 699 => Some(DecryptionError)
    case 701 => Some(SenderNotAssociated)
    case 702 => Some(PackageFormatNotRecognized)
    case 703 => Some(DataSetExchangeNotEstablished)
    case 999 => Some(SystemError)
    case _ => None
  }

  function WarningNumbered(n: int): Option<ErrorCode> {
    match n
    case 100 => Some(TransactionSetNotMutuallyAgreed)
    case 103 => Some(MissingReceiptSecuritySelectionWarning)
    case 104 => Some(RefnumReceivedNotMutuallyAgreed)
    case 105 => Some(RefnumOrigReceivedNotMutuallyAgreed)
    case _ => None
  }

  /** The gateway's own codes differ in length. */
  function ExtensionOfLength(n: int): Option<ErrorCode> {
    match n
    case 20 => Some(DuplicateDigest)
    case 13 => Some(WeakAlgorithm)
    case 16 => Some(SinkFailure)
    case 19 => Some(Unauthenticated)
    case _ => None
  }

  function CodeOf(s: Bytes): Option<ErrorCode> {
    if |s| < 7 then None
    else if s[0] == 'E' then ErrorNumbered(NumberOf(s))
    else if s[0] == 'W' then WarningNumbered(NumberOf(s))
    else ExtensionOfLength(|s|)
  }

  /** No two codes share a wire value: each can be read back from its own. */
  lemma ValueInjective(a: ErrorCode, b: ErrorCode)
    ensures CodeOf(Value(a)) == Some(a)
    ensures Value(a) == Value(b) ==> a == b
  {
    CodeReadBack(a);
    CodeReadBack(b);
    hide Value, CodeOf;
  }

  lemma CodeReadBack(code: ErrorCode)
    ensures CodeOf(Value(code)) == Some(code)
  {
    if EnvelopeCode(code) {
      EnvelopeReadBack(code);
    } else if PackageCode(code) {
      PackageReadBack(code);
    } else {
      OtherReadBack(code);
    }
    hide Value, CodeOf;
  }

  lemma EnvelopeReadBack(code: ErrorCode)
    requires EnvelopeCode(code)
    ensures CodeOf(Value(code)) == Some(code)
  {
  }

  lemma PackageReadBack(code: ErrorCode)
    requires PackageCode(code)
    ensures CodeOf(Value(code)) == Some(code)
  {
  }

  lemma OtherReadBack(code: ErrorCode)
    requires !EnvelopeCode(code) && !PackageCode(code)
    ensures CodeOf(Value(code)) == Some(code)
  {
  }
}
