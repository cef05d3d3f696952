/** The WhatsApp message texts the handlers render. Each is a literal
    interpolation; the lemmas state which fields each text carries. */
module Templates {
  import opened Common

  const ReasonPlaceholder: string := "Tidak disebutkan"

  /** `rejectionReason || "Tidak disebutkan"`. */
  function ReasonText(reason: Option<string>): (t: string)
    ensures Truthy(reason) ==> t == reason.value
    ensures !Truthy(reason) ==> t == ReasonPlaceholder
  {
    if Truthy(reason) then reason.value else ReasonPlaceholder
  }

  /** To the applicant, after an application is created. */
  function ApplicantCreated(name: string, applicationId: string): string {
    "Halo " + name + ",\n\nPengajuan pernikahan Anda telah berhasil didaftarkan.\nID Aplikasi: "
    + applicationId
    + "\nStatus: Menunggu Proses\n\nKami akan menginformasikan perkembangan selanjutnya.\n\nTerima kasih,\nKUA"
  }

  /** To the KUA administrator, after an application is created. */
  function AdminCreated(applicationId: string, applicantName: string,
                        groomName: string, brideName: string): string {
    "Pengajuan pernikahan baru:\n\nID: " + applicationId
    + "\nPemohon: " + applicantName
    + "\nCalon Suami: " + groomName
    + "\nCalon Istri: " + brideName
    + "\n\nSilakan proses di aplikasi KUA."
  }

  /** The shape shared by the four status texts: a greeting to the applicant,
      then the application id inside the body. */
  function Addressed(name: string, lead: string, applicationId: string, body: string): string {
    "Halo " + name + lead + applicationId + body
  }

  const StatusLead: string := ",\n\nPengajuan pernikahan Anda (ID: "
  const FinishedLead: string := ",\n\nSelamat! Pengajuan pernikahan Anda (ID: "
  const RejectedLead: string := ",\n\nMohon maaf, pengajuan pernikahan Anda (ID: "
  const ProcessedBody: string :=
    ") sedang diproses oleh KUA.\n\nStatus: Dalam Proses\n\nTerima kasih,\nKUA"
  const ValidatedBody: string :=
    ") telah divalidasi oleh Dukcapil.\n\nStatus: Tervalidasi\n\nTerima kasih,\nKUA"
  const FinishedBody: string :=
    ") telah selesai diproses.\n\nStatus: Selesai\n\nSilakan datang ke KUA untuk proses selanjutnya.\n\nTerima kasih,\nKUA"
  const RejectedHead: string := ") ditolak.\n\nStatus: Ditolak\nAlasan: "
  const RejectedTail: string :=
    "\n\nSilakan hubungi KUA untuk informasi lebih lanjut.\n\nTerima kasih,\nKUA"

  function ProcessedText(name: string, applicationId: string): string {
    Addressed(name, StatusLead, applicationId, ProcessedBody)
  }

  function ValidatedText(name: string, applicationId: string): string {
    Addressed(name, StatusLead, applicationId, ValidatedBody)
  }

  function FinishedText(name: string, applicationId: string): string {
    Addressed(name, FinishedLead, applicationId, FinishedBody)
  }

  function RejectedText(name: string, applicationId: string, reason: Option<string>): string {
    Addressed(name, RejectedLead, applicationId, RejectedHead + ReasonText(reason) + RejectedTail)
  }

  /** A text of that shape names the applicant and carries the application id. */
  lemma AddressedMentions(name: string, lead: string, applicationId: string, body: string)
    ensures Contains(Addressed(name, lead, applicationId, body), name)
    ensures Contains(Addressed(name, lead, applicationId, body), applicationId)
  {
    var m := Addressed(name, lead, applicationId, body);
    assert m == "Halo " + name + (lead + applicationId + body);
    ContainsMiddle("Halo ", name, lead + applicationId + body);
    assert m == ("Halo " + name + lead) + applicationId + body;
    ContainsMiddle("Halo " + name + lead, applicationId, body);
  }

  /** The rejection text gives the reason when it is truthy and the placeholder otherwise. */
  lemma RejectedTextGivesReason(name: string, applicationId: string, reason: Option<string>)
    ensures Truthy(reason) ==> Contains(RejectedText(name, applicationId, reason), reason.value)
    ensures !Truthy(reason) ==> Contains(RejectedText(name, applicationId, reason), ReasonPlaceholder)
  {
    var before := "Halo " + name + RejectedLead + applicationId + RejectedHead;
    assert RejectedText(name, applicationId, reason) == before + ReasonText(reason) + RejectedTail;
    ContainsMiddle(before, ReasonText(reason), RejectedTail);
  }

  /** The applicant's confirmation names the applicant and carries the application id. */
  lemma ApplicantCreatedMentions(name: string, applicationId: string)
    ensures Contains(ApplicantCreated(name, applicationId), name)
    ensures Contains(ApplicantCreated(name, applicationId), applicationId)
  {
    var m := ApplicantCreated(name, applicationId);
    var tail := ",\n\nPengajuan pernikahan Anda telah berhasil didaftarkan.\nID Aplikasi: "
      + applicationId
      + "\nStatus: Menunggu Proses\n\nKami akan menginformasikan perkembangan selanjutnya.\n\nTerima kasih,\nKUA";
    assert m == "Halo " + name + tail;
    ContainsMiddle("Halo ", name, tail);
    ContainsMiddle("Halo " + name + ",\n\nPengajuan pernikahan Anda telah berhasil didaftarkan.\nID Aplikasi: ",
      applicationId,
      "\nStatus: Menunggu Proses\n\nKami akan menginformasikan perkembangan selanjutnya.\n\nTerima kasih,\nKUA");
  }

  /** The administrator's notice carries the application id and both spouses' names. */
  lemma AdminCreatedMentions(applicationId: string, applicantName: string,
                             groomName: string, brideName: string)
    ensures Contains(AdminCreated(applicationId, applicantName, groomName, brideName), applicationId)
    ensures Contains(AdminCreated(applicationId, applicantName, groomName, brideName), groomName)
    ensures Contains(AdminCreated(applicationId, applicantName, groomName, brideName), brideName)
  {
    var head := "Pengajuan pernikahan baru:\n\nID: ";
    var afterId := "\nPemohon: " + applicantName + "\nCalon Suami: " + groomName
      + "\nCalon Istri: " + brideName + "\n\nSilakan proses di aplikasi KUA.";
    assert AdminCreated(applicationId, applicantName, groomName, brideName)
      == head + applicationId + afterId;
    ContainsMiddle(head, applicationId, afterId);
    var beforeGroom := head + applicationId + "\nPemohon: " + applicantName + "\nCalon Suami: ";
    var afterGroom := "\nCalon Istri: " + brideName + "\n\nSilakan proses di aplikasi KUA.";
    assert AdminCreated(applicationId, applicantName, groomName, brideName)
      == beforeGroom + groomName + afterGroom;
    ContainsMiddle(beforeGroom, groomName, afterGroom);
    ContainsMiddle(beforeGroom + groomName + "\nCalon Istri: ", brideName,
      "\n\nSilakan proses di aplikasi KUA.");
  }
}
