/** The fixed sections of the legacy informed consent form: the
    introduction, the contact information with its site placeholders, and
    the signature page. */
module IcfLegacyTexts {
  import opened Wrappers
  import opened Text
  import opened Schema

  const IntroductionText: string :=
    "You are being asked to take part in a research study. "
    + "This form gives you important information about the study. "
    + "Please read it carefully and take your time. "
    + "Ask your study doctor or study staff to explain anything you do not understand. "
    + "You can ask questions at any time. "
    + "Taking part in this study is your choice."

  /** `_build_introduction_section`. */
  const IntroductionSection: Section :=
    Section("introduction", 1, "Introduction", [Para(IntroductionText, 6, 12)], [])

  /** `_build_contact_section`: who to call, with the site details left
      as `{{...}}` placeholders. */
  const ContactSection: Section :=
    Section("contact", 1, "10. CONTACT INFORMATION", [
      Para("If you have questions about the study, contact:", 0, 6),
      Para("Principal Investigator: {{pi_name}}", 0, 3),
      Para("Phone: {{pi_phone}}", 0, 12),
      Para("For questions about your rights as a research participant, contact:", 0, 6),
      Para("Institutional Review Board: {{irb_name}}", 0, 3),
      Para("Phone: {{irb_phone}}", 0, 12),
      Para("For medical emergencies related to this study, contact:", 0, 6),
      Para("{{emergency_contact}}", 0, 12)
    ], [])

  const SignaturePreamble: string :=
    "I have read this consent form and have had the chance to ask questions. "
    + "All my questions have been answered to my satisfaction. "
    + "I voluntarily agree to take part in this research study. "
    + "I will receive a signed copy of this form."

  /** `"_" * 50`. */
  function SignatureLine(): string
  {
    Repeat('_', 50)
  }

  /** `"_" * 50 + "    Date: _____________"`. */
  function DatedLine(): string
  {
    Repeat('_', 50) + "    Date: _____________"
  }

  /** `_build_signature_section`: a new page, the preamble, and the lines
      for the participant, the person obtaining consent and a legally
      authorized representative. */
  function SignatureSection(): Section
  {
    Section("signatures", 1, "SIGNATURE PAGE", [
      NewBlock(PageBreakType),
      Heading("SIGNATURE PAGE", 1, 0, 24).(alignment := Center),
      Para(SignaturePreamble, 0, 24),
      Para(SignatureLine(), 24, 3),
      Para("Participant Name (printed)", 0, 18),
      Para(DatedLine(), 0, 3),
      Para("Participant Signature", 0, 24),
      Para(DatedLine(), 0, 3),
      Para("Person Obtaining Consent", 0, 24),
      Para("If applicable (for participants who cannot consent for themselves):", 24, 12)
        .(formatting := Some([Italic(0, 13)])),
      Para(DatedLine(), 0, 3),
      Para("Legally Authorized Representative Signature", 0, 6),
      Para(SignatureLine(), 0, 3),
      Para("Relationship to Participant", 0, 12)
    ], [])
  }
}
