/** The status-transition policy of `onStatusChanged`: which new statuses
    are announced, with which text and under which audit action tag. */
module Policy {
  import opened Common
  import opened Records
  import opened Templates

  /** The rendered notification and the log action tag of one transition. */
  datatype Notice = Notice(message: string, action: Action)

  /** The statuses the switch has a case for. */
  const Announced: set<string> := {"processed", "validated", "finished", "rejected"}

  /** backend/functions/index.js:154-192: `None` is the `default: return null` branch. */
  function ResolveStatus(newStatus: Option<string>, applicationId: string,
                         name: string, reason: Option<string>): (r: Option<Notice>)
    ensures r.Some? <==> newStatus.Some? && newStatus.value in Announced
  {
    if newStatus == Some("processed") then
      Some(Notice(ProcessedText(name, applicationId), StatusProcessed))
    else if newStatus == Some("validated") then
      Some(Notice(ValidatedText(name, applicationId), StatusValidated))
    else if newStatus == Some("finished") then
      Some(Notice(FinishedText(name, applicationId), StatusFinished))
    else if newStatus == Some("rejected") then
      Some(Notice(RejectedText(name, applicationId, reason), StatusRejected))
    else
      None
  }

  /** Each announced status has exactly one action tag, its own. */
  lemma ResolveStatusTags(applicationId: string, name: string, reason: Option<string>)
    ensures ResolveStatus(Some("processed"), applicationId, name, reason).value.action == StatusProcessed
    ensures ResolveStatus(Some("validated"), applicationId, name, reason).value.action == StatusValidated
    ensures ResolveStatus(Some("finished"), applicationId, name, reason).value.action == StatusFinished
    ensures ResolveStatus(Some("rejected"), applicationId, name, reason).value.action == StatusRejected
  {
  }

  /** Distinct statuses are logged under distinct tags: the tag tells which
      status was entered, whatever the application, applicant or reason. */
  lemma {:induction false} ActionTagDeterminesStatus(s1: Option<string>, s2: Option<string>,
      id1: string, name1: string, reason1: Option<string>,
      id2: string, name2: string, reason2: Option<string>)
    requires ResolveStatus(s1, id1, name1, reason1).Some?
    requires ResolveStatus(s2, id2, name2, reason2).Some?
    requires ResolveStatus(s1, id1, name1, reason1).value.action
          == ResolveStatus(s2, id2, name2, reason2).value.action
    ensures s1 == s2
  {
  }

  /** Every announcement names the applicant and carries the application id. */
  lemma {:induction false} ResolveStatusMentions(newStatus: Option<string>, applicationId: string,
                                                 name: string, reason: Option<string>)
    requires ResolveStatus(newStatus, applicationId, name, reason).Some?
    ensures var m := ResolveStatus(newStatus, applicationId, name, reason).value.message;
      Contains(m, name) && Contains(m, applicationId)
  {
    if newStatus == Some("processed") {
      AddressedMentions(name, StatusLead, applicationId, ProcessedBody);
    } else if newStatus == Some("validated") {
      AddressedMentions(name, StatusLead, applicationId, ValidatedBody);
    } else if newStatus == Some("finished") {
      AddressedMentions(name, FinishedLead, applicationId, FinishedBody);
    } else {
      AddressedMentions(name, RejectedLead, applicationId,
                        RejectedHead + ReasonText(reason) + RejectedTail);
    }
  }

  /** A rejection gives the reason when it is truthy and the placeholder otherwise. */
  lemma {:induction false} RejectionGivesReason(applicationId: string, name: string,
                                                reason: Option<string>)
    ensures var m := ResolveStatus(Some("rejected"), applicationId, name, reason).value.message;
      && (Truthy(reason) ==> Contains(m, reason.value))
      && (!Truthy(reason) ==> Contains(m, ReasonPlaceholder))
  {
    RejectedTextGivesReason(name, applicationId, reason);
  }
}
