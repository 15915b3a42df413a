/**
 * De-identification of DICOM metadata: the patient identifier is replaced by the first
 * sixteen hex digits of a salted SHA-256 digest.  The digest function (salt and value
 * concatenated, UTF-8 encoded, hex output) is the parameter `sha256Hex`; the environment
 * variable ANONYMIZATION_SALT is the parameter `envSalt`.
 */
module Anonymizer {
  import opened Wrappers
  import Numbers

  const DefaultSalt := "voxray_default_salt"
  const PatientIdKey := "patient_id"
  const PatientIdHashKey := "patient_id_hash"

  /** The metadata values the handler produces, with Python's `str()` of each. */
  datatype MetaValue = Str(s: string) | Integer(i: int) | NoneValue | Other(repr: string)

  function Show(v: MetaValue): (r: string)
    ensures v.Str? ==> r == v.s
    ensures v.NoneValue? ==> r == "None"
    ensures v.Integer? ==> |r| > 0
  {
    match v
    case Str(s) => s
    case Integer(i) => if i < 0 then "-" + Numbers.DigitsOf(-i) else Numbers.DigitsOf(i)
    case NoneValue => "None"
    case Other(repr) => repr
  }

  function Min(a: nat, b: nat): nat { if a <= b then a else b }

  class DicomAnonymizer {
    var salt: string

    /** `salt or os.getenv("ANONYMIZATION_SALT", default)`. */
    constructor (salt: Option<string>, envSalt: Option<string>)
      ensures salt.Some? && salt.value != "" ==> this.salt == salt.value
      ensures (salt.None? || salt.value == "") ==> this.salt == envSalt.GetOr(DefaultSalt)
    {
      if salt.Some? && salt.value != "" {
        this.salt := salt.value;
      } else {
        this.salt := envSalt.GetOr(DefaultSalt);
      }
    }

    /** `hash_identifier(value)`: the first 16 characters of the digest of salt + value. */
    function HashIdentifier(value: string, sha256Hex: string -> string): (r: string)
      reads this
      ensures |r| == Min(16, |sha256Hex(salt + value)|)
      ensures forall i :: 0 <= i < |r| ==> r[i] == sha256Hex(salt + value)[i]
    {
      var h := sha256Hex(salt + value);
      h[..Min(16, |h|)]
    }

    /**
     * `anonymize_metadata(metadata)`: work on a copy (empty for `None`), add the hash of the
     * identifier's string form when it is non-empty, and drop the identifier.
     */
    method AnonymizeMetadata(metadata: Option<map<string, MetaValue>>, sha256Hex: string -> string)
      returns (r: map<string, MetaValue>)
      ensures PatientIdKey !in r
      ensures metadata.None? ==> r == map[]
      ensures var meta := metadata.GetOr(map[]);
        var pid := if PatientIdKey in meta then Show(meta[PatientIdKey]) else "";
        (pid != "" ==> PatientIdHashKey in r && r[PatientIdHashKey] == Str(HashIdentifier(pid, sha256Hex)))
        && (pid == "" ==> (PatientIdHashKey in r <==> PatientIdHashKey in meta))
        && (pid == "" && PatientIdHashKey in meta ==> r[PatientIdHashKey] == meta[PatientIdHashKey])
        && (forall k :: k in meta && k != PatientIdKey && k != PatientIdHashKey ==> k in r && r[k] == meta[k])
        && (forall k :: k in r ==> k in meta || k == PatientIdHashKey)
    {
      var meta := if metadata.Some? then metadata.value else map[];
      var pid := if PatientIdKey in meta then Show(meta[PatientIdKey]) else "";
      if pid != "" {
        meta := meta[PatientIdHashKey := Str(HashIdentifier(pid, sha256Hex))];
      }
      meta := meta - {PatientIdKey};
      r := meta;
    }
  }
}
