/** The upload validator: per-field size ceilings and content-type allow-lists
    that the profile and job handlers apply to the metadata multer reports for
    a received file (declared size in bytes and declared MIME type). */
module Uploads {
  import opened Text

  const MiB: nat := 1024 * 1024

  /** What the validator decides about one file. */
  datatype Verdict = Accept | Reject(message: string)

  /** A per-field rule: the largest size accepted, the allowed types (`None`
      when any type is accepted) and the message for each rejection. */
  datatype Policy = Policy(maxSize: nat, allowed: Option<set<string>>, tooLarge: string, badType: string)

  const AvatarPolicy := Policy(2 * MiB, Some({"image/png", "image/jpeg"}), "Avatar too large", "Invalid avatar type")
  const CvPolicy := Policy(5 * MiB, Some({"application/pdf"}), "CV too large", "CV must be PDF")
  const AttachmentPolicy := Policy(8 * MiB, None, "Attachment too large", "")

  /** The size rule is checked first, then the type rule. */
  function Validate(p: Policy, size: nat, mimetype: string): (v: Verdict)
    ensures v == Accept <==> size <= p.maxSize && (p.allowed.None? || mimetype in p.allowed.value)
    ensures size > p.maxSize ==> v == Reject(p.tooLarge)
    ensures size <= p.maxSize && p.allowed.Some? && mimetype !in p.allowed.value ==> v == Reject(p.badType)
  {
    if size > p.maxSize then Reject(p.tooLarge)
    else if p.allowed.Some? && mimetype !in p.allowed.value then Reject(p.badType)
    else Accept
  }

  /** Avatars: at most 2 MiB (2 MiB itself is accepted), PNG or JPEG only; an
      oversized file of the wrong type reports its size. */
  lemma AvatarRules(size: nat, mimetype: string)
    ensures Validate(AvatarPolicy, size, mimetype) == Accept
        <==> size <= 2097152 && (mimetype == "image/png" || mimetype == "image/jpeg")
    ensures size > 2097152 ==> Validate(AvatarPolicy, size, mimetype) == Reject("Avatar too large")
    ensures size <= 2097152 && mimetype != "image/png" && mimetype != "image/jpeg"
        ==> Validate(AvatarPolicy, size, mimetype) == Reject("Invalid avatar type")
  {
  }

  /** CVs: at most 5 MiB, PDF only, size checked first. */
  lemma CvRules(size: nat, mimetype: string)
    ensures Validate(CvPolicy, size, mimetype) == Accept
        <==> size <= 5242880 && mimetype == "application/pdf"
    ensures size > 5242880 ==> Validate(CvPolicy, size, mimetype) == Reject("CV too large")
    ensures size <= 5242880 && mimetype != "application/pdf"
        ==> Validate(CvPolicy, size, mimetype) == Reject("CV must be PDF")
  {
  }

  /** Job attachments: only the 8 MiB ceiling; the type is never looked at. */
  lemma AttachmentRules(size: nat, mimetype: string, other: string)
    ensures Validate(AttachmentPolicy, size, mimetype) == Accept <==> size <= 8388608
    ensures Validate(AttachmentPolicy, size, mimetype) == Validate(AttachmentPolicy, size, other)
    ensures size > 8388608 ==> Validate(AttachmentPolicy, size, mimetype) == Reject("Attachment too large")
  {
  }
}
