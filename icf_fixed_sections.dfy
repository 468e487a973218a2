/** The fixed parts of the consent form: the contact section and the
    signature page, whose texts do not depend on the protocol. */
module IcfFixedSections {
  import opened Schema

  /** `_build_contact_section`. */
  const ContactSection: Section :=
    Section("contact", 1, "WHO CAN ANSWER MY QUESTIONS?", [
      Para("If you have questions about the study, contact your study doctor or study staff.", 0, 12),
      Para("For questions about your rights as a research participant, contact the Institutional Review Board (IRB) at your study site.", 0, 12),
      Para("Your study team will provide you with specific contact names and phone numbers for your site.", 0, 12)
    ], [])

  const ConsentPreamble: string :=
    "I have read this consent form and have had the chance to ask questions. "
    + "All my questions have been answered to my satisfaction. "
    + "I voluntarily agree to take part in this research study. "
    + "I will receive a signed copy of this form."

  /** `"_" * 50`. */
  const SignatureRule: string := "__________________________________________________"

  /** `_build_signature_section`: a page break, the preamble, then three
      signature lines with their captions. */
  const SignatureSection: Section :=
    Section("signatures", 1, "CONSENT TO PARTICIPATE", [
      NewBlock(PageBreakType),
      Para(ConsentPreamble, 0, 24),
      Para(SignatureRule, 24, 3),
      Para("Participant Name (printed)", 0, 18),
      Para(SignatureRule + "    Date: _____________", 0, 3),
      Para("Participant Signature", 0, 24),
      Para(SignatureRule + "    Date: _____________", 0, 3),
      Para("Person Obtaining Consent", 0, 12)
    ], [])
}
