/** The static translation table of the client's locale layer
    (frontend/src/contexts/LanguageContext.jsx, lines 14-459): one catalog per
    language code, each mapping a translation key to a template that may hold
    `{name}` placeholders. Every catalog is written, as in the source, section
    by section (navigation, upload, summary, ...); the catalog is the union of
    its sections, whose keys are disjoint. */
module Translations {

  type Catalog = map<string, string>

  // English, navigation (lines 17-21)
  const EnglishNav: Catalog := map[
    "nav.legalEase" := "LegalEase AI",
    "nav.upload" := "Analyze Legal Documents",
    "nav.summary" := "Summary",
    "nav.clauses" := "Clauses",
    "nav.chat" := "Chat"
  ]
  // English, upload (lines 24-32)
  const EnglishUpload: Catalog := map[
    "upload.title" := "In Seconds, Not Hours",
    "upload.description" := "Upload any legal document and instantly summarize, highlight key clauses, or chat with our AI for real-time insights and analysis.",
    "upload.button" := "Choose Document",
    "upload.uploading" := "Uploading…",
    "upload.success" := "Uploaded successfully",
    "upload.error" := "Failed to upload document",
    "upload.remove" := "Remove document",
    "upload.removed" := "Removed document",
    "upload.unsupported" := "Unsupported file format. Supported formats: {formats}"
  ]
  // English, summary (lines 35-43)
  const EnglishSummary: Catalog := map[
    "summary.title" := "Summary",
    "summary.description" := "Clear and easy-to-understand summary",
    "summary.analysisIn" := "Analysis in {language}",
    "summary.generate" := "Generate Summary",
    "summary.generating" := "Summarizing…",
    "summary.noSummary" := "No summary yet.",
    "summary.copy" := "Copy",
    "summary.download" := "Download PDF",
    "summary.copied" := "Copied to clipboard"
  ]
  // English, clauses (lines 46-53)
  const EnglishClauses: Catalog := map[
    "clauses.title" := "Clauses",
    "clauses.description" := "Analyze key clauses and their implications",
    "clauses.analyze" := "Analyze Clauses",
    "clauses.analyzing" := "Analyzing…",
    "clauses.noClauses" := "No clause analysis yet.",
    "clauses.safe" := "Safe",
    "clauses.caution" := "Caution",
    "clauses.risky" := "Risky"
  ]
  // English, chat (lines 56-61)
  const EnglishChat: Catalog := map[
    "chat.title" := "Chat",
    "chat.description" := "Ask questions about your document",
    "chat.placeholder" := "Ask a question about your document...",
    "chat.send" := "Send",
    "chat.sending" := "Sending…",
    "chat.noMessages" := "No messages yet."
  ]
  // English, common (lines 64-70)
  const EnglishCommon: Catalog := map[
    "common.uploadFirst" := "Upload a document first",
    "common.error" := "An error occurred",
    "common.loading" := "Loading...",
    "common.close" := "Close",
    "common.cancel" := "Cancel",
    "common.save" := "Save",
    "common.delete" := "Delete"
  ]
  // English, footer (lines 73-73)
  const EnglishFooter: Catalog := map[
    "footer.disclaimer" := "⚠️ Not legal advice. This tool is a prototype for educational purposes."
  ]
  // English, language selector (lines 76-87)
  const EnglishLanguages: Catalog := map[
    "language.selector" := "Language",
    "language.english" := "English",
    "language.spanish" := "Español",
    "language.french" := "Français",
    "language.german" := "Deutsch",
    "language.italian" := "Italiano",
    "language.portuguese" := "Português",
    "language.russian" := "Русский",
    "language.chinese" := "中文",
    "language.japanese" := "日本語",
    "language.arabic" := "العربية",
    "language.hindi" := "हिन्दी"
  ]

  /** The `en` catalog. */
  const English: Catalog :=
    EnglishNav + EnglishUpload + EnglishSummary + EnglishClauses + EnglishChat + EnglishCommon + EnglishFooter + EnglishLanguages

  // Spanish, navigation (lines 92-96)
  const SpanishNav: Catalog := map[
    "nav.legalEase" := "LegalEase AI",
    "nav.upload" := "Subir Documento",
    "nav.summary" := "Resumen",
    "nav.clauses" := "Cláusulas",
    "nav.chat" := "Chat"
  ]
  // Spanish, upload (lines 99-107)
  const SpanishUpload: Catalog := map[
    "upload.title" := "Subir un documento legal",
    "upload.description" := "Soporta PDF, DOC, DOCX e imágenes. Extraemos texto localmente a través del backend.",
    "upload.button" := "Elegir Documento",
    "upload.uploading" := "Subiendo…",
    "upload.success" := "Subido exitosamente",
    "upload.error" := "Error al subir documento",
    "upload.remove" := "Eliminar documento",
    "upload.removed" := "Documento eliminado",
    "upload.unsupported" := "Formato de archivo no soportado. Formatos soportados: {formats}"
  ]
  // Spanish, summary (lines 110-118)
  const SpanishSummary: Catalog := map[
    "summary.title" := "Resumen",
    "summary.description" := "Resumen claro y fácil de entender",
    "summary.analysisIn" := "Análisis en {language}",
    "summary.generate" := "Generar Resumen",
    "summary.generating" := "Generando…",
    "summary.noSummary" := "Aún no hay resumen.",
    "summary.copy" := "Copiar",
    "summary.download" := "Descargar PDF",
    "summary.copied" := "Copiado al portapapeles"
  ]
  // Spanish, clauses (lines 121-128)
  const SpanishClauses: Catalog := map[
    "clauses.title" := "Cláusulas",
    "clauses.description" := "Analiza cláusulas clave y sus implicaciones",
    "clauses.analyze" := "Analizar Cláusulas",
    "clauses.analyzing" := "Analizando…",
    "clauses.noClauses" := "Aún no hay análisis de cláusulas.",
    "clauses.safe" := "Seguro",
    "clauses.caution" := "Precaución",
    "clauses.risky" := "Riesgoso"
  ]
  // Spanish, chat (lines 131-136)
  const SpanishChat: Catalog := map[
    "chat.title" := "Chat",
    "chat.description" := "Haz preguntas sobre tu documento",
    "chat.placeholder" := "Haz una pregunta sobre tu documento...",
    "chat.send" := "Enviar",
    "chat.sending" := "Enviando…",
    "chat.noMessages" := "Aún no hay mensajes."
  ]
  // Spanish, common (lines 139-145)
  const SpanishCommon: Catalog := map[
    "common.uploadFirst" := "Sube un documento primero",
    "common.error" := "Ocurrió un error",
    "common.loading" := "Cargando...",
    "common.close" := "Cerrar",
    "common.cancel" := "Cancelar",
    "common.save" := "Guardar",
    "common.delete" := "Eliminar"
  ]
  // Spanish, footer (lines 148-148)
  const SpanishFooter: Catalog := map[
    "footer.disclaimer" := "⚠️ No es asesoría legal. Esta herramienta es un prototipo con fines educativos."
  ]
  // Spanish, language selector (lines 151-162)
  const SpanishLanguages: Catalog := map[
    "language.selector" := "Idioma",
    "language.english" := "English",
    "language.spanish" := "Español",
    "language.french" := "Français",
    "language.german" := "Deutsch",
    "language.italian" := "Italiano",
    "language.portuguese" := "Português",
    "language.russian" := "Русский",
    "language.chinese" := "中文",
    "language.japanese" := "日本語",
    "language.arabic" := "العربية",
    "language.hindi" := "हिन्दी"
  ]

  /** The `es` catalog. */
  const Spanish: Catalog :=
    SpanishNav + SpanishUpload + SpanishSummary + SpanishClauses + SpanishChat + SpanishCommon + SpanishFooter + SpanishLanguages

  // French, navigation (lines 167-171)
  const FrenchNav: Catalog := map[
    "nav.legalEase" := "LegalEase AI",
    "nav.upload" := "Télécharger Document",
    "nav.summary" := "Résumé",
    "nav.clauses" := "Clauses",
    "nav.chat" := "Chat"
  ]
  // French, upload (lines 174-182)
  const FrenchUpload: Catalog := map[
    "upload.title" := "Télécharger un document juridique",
    "upload.description" := "Supporte PDF, DOC, DOCX et images. Nous extrayons le texte localement via le backend.",
    "upload.button" := "Choisir Document",
    "upload.uploading" := "Téléchargement…",
    "upload.success" := "Téléchargé avec succès",
    "upload.error" := "Échec du téléchargement du document",
    "upload.remove" := "Supprimer document",
    "upload.removed" := "Document supprimé",
    "upload.unsupported" := "Format de fichier non supporté. Formats supportés: {formats}"
  ]
  // French, summary (lines 185-193)
  const FrenchSummary: Catalog := map[
    "summary.title" := "Résumé",
    "summary.description" := "Résumé clair et facile à comprendre",
    "summary.analysisIn" := "Analyse en {language}",
    "summary.generate" := "Générer Résumé",
    "summary.generating" := "Génération…",
    "summary.noSummary" := "Pas encore de résumé.",
    "summary.copy" := "Copier",
    "summary.download" := "Télécharger PDF",
    "summary.copied" := "Copié dans le presse-papiers"
  ]
  // French, clauses (lines 196-203)
  const FrenchClauses: Catalog := map[
    "clauses.title" := "Clauses",
    "clauses.description" := "Analyser les clauses clés et leurs implications",
    "clauses.analyze" := "Analyser Clauses",
    "clauses.analyzing" := "Analyse…",
    "clauses.noClauses" := "Pas encore d\'analyse de clauses.",
    "clauses.safe" := "Sûr",
    "clauses.caution" := "Attention",
    "clauses.risky" := "Risqué"
  ]
  // French, chat (lines 206-211)
  const FrenchChat: Catalog := map[
    "chat.title" := "Chat",
    "chat.description" := "Posez des questions sur votre document",
    "chat.placeholder" := "Posez une question sur votre document...",
    "chat.send" := "Envoyer",
    "chat.sending" := "Envoi…",
    "chat.noMessages" := "Pas encore de messages."
  ]
  // French, common (lines 214-220)
  const FrenchCommon: Catalog := map[
    "common.uploadFirst" := "Téléchargez un document d\'abord",
    "common.error" := "Une erreur s\'est produite",
    "common.loading" := "Chargement...",
    "common.close" := "Fermer",
    "common.cancel" := "Annuler",
    "common.save" := "Enregistrer",
    "common.delete" := "Supprimer"
  ]
  // French, footer (lines 223-223)
  const FrenchFooter: Catalog := map[
    "footer.disclaimer" := "⚠️ Pas de conseil juridique. Cet outil est un prototype à des fins éducatives."
  ]
  // French, language selector (lines 226-237)
  const FrenchLanguages: Catalog := map[
    "language.selector" := "Langue",
    "language.english" := "English",
    "language.spanish" := "Español",
    "language.french" := "Français",
    "language.german" := "Deutsch",
    "language.italian" := "Italiano",
    "language.portuguese" := "Português",
    "language.russian" := "Русский",
    "language.chinese" := "中文",
    "language.japanese" := "日本語",
    "language.arabic" := "العربية",
    "language.hindi" := "हिन्दी"
  ]

  /** The `fr` catalog. */
  const French: Catalog :=
    FrenchNav + FrenchUpload + FrenchSummary + FrenchClauses + FrenchChat + FrenchCommon + FrenchFooter + FrenchLanguages

  // German, navigation (lines 242-246)
  const GermanNav: Catalog := map[
    "nav.legalEase" := "LegalEase AI",
    "nav.upload" := "Dokument Hochladen",
    "nav.summary" := "Zusammenfassung",
    "nav.clauses" := "Klauseln",
    "nav.chat" := "Chat"
  ]
  // German, upload (lines 249-257)
  const GermanUpload: Catalog := map[
    "upload.title" := "Rechtsdokument hochladen",
    "upload.description" := "Unterstützt PDF, DOC, DOCX und Bilder. Wir extrahieren Text lokal über das Backend.",
    "upload.button" := "Dokument Wählen",
    "upload.uploading" := "Hochladen…",
    "upload.success" := "Erfolgreich hochgeladen",
    "upload.error" := "Fehler beim Hochladen des Dokuments",
    "upload.remove" := "Dokument Entfernen",
    "upload.removed" := "Dokument entfernt",
    "upload.unsupported" := "Nicht unterstütztes Dateiformat. Unterstützte Formate: {formats}"
  ]
  // German, summary (lines 260-268)
  const GermanSummary: Catalog := map[
    "summary.title" := "Zusammenfassung",
    "summary.description" := "Klare und verständliche Zusammenfassung",
    "summary.analysisIn" := "Analyse auf {language}",
    "summary.generate" := "Zusammenfassung Generieren",
    "summary.generating" := "Generierung…",
    "summary.noSummary" := "Noch keine Zusammenfassung.",
    "summary.copy" := "Kopieren",
    "summary.download" := "PDF Herunterladen",
    "summary.copied" := "In Zwischenablage kopiert"
  ]
  // German, clauses (lines 271-278)
  const GermanClauses: Catalog := map[
    "clauses.title" := "Klauseln",
    "clauses.description" := "Analysieren Sie wichtige Klauseln und deren Auswirkungen",
    "clauses.analyze" := "Klauseln Analysieren",
    "clauses.analyzing" := "Analysierung…",
    "clauses.noClauses" := "Noch keine Klauselanalyse.",
    "clauses.safe" := "Sicher",
    "clauses.caution" := "Vorsicht",
    "clauses.risky" := "Risikoreich"
  ]
  // German, chat (lines 281-286)
  const GermanChat: Catalog := map[
    "chat.title" := "Chat",
    "chat.description" := "Stellen Sie Fragen zu Ihrem Dokument",
    "chat.placeholder" := "Stellen Sie eine Frage zu Ihrem Dokument...",
    "chat.send" := "Senden",
    "chat.sending" := "Senden…",
    "chat.noMessages" := "Noch keine Nachrichten."
  ]
  // German, common (lines 289-295)
  const GermanCommon: Catalog := map[
    "common.uploadFirst" := "Laden Sie zuerst ein Dokument hoch",
    "common.error" := "Ein Fehler ist aufgetreten",
    "common.loading" := "Laden...",
    "common.close" := "Schließen",
    "common.cancel" := "Abbrechen",
    "common.save" := "Speichern",
    "common.delete" := "Löschen"
  ]
  // German, footer (lines 298-298)
  const GermanFooter: Catalog := map[
    "footer.disclaimer" := "⚠️ Keine Rechtsberatung. Dieses Tool ist ein Prototyp für Bildungszwecke."
  ]
  // German, language selector (lines 301-312)
  const GermanLanguages: Catalog := map[
    "language.selector" := "Sprache",
    "language.english" := "English",
    "language.spanish" := "Español",
    "language.french" := "Français",
    "language.german" := "Deutsch",
    "language.italian" := "Italiano",
    "language.portuguese" := "Português",
    "language.russian" := "Русский",
    "language.chinese" := "中文",
    "language.japanese" := "日本語",
    "language.arabic" := "العربية",
    "language.hindi" := "हिन्दी"
  ]

  /** The `de` catalog. */
  const German: Catalog :=
    GermanNav + GermanUpload + GermanSummary + GermanClauses + GermanChat + GermanCommon + GermanFooter + GermanLanguages

  // Hindi, navigation (lines 317-321)
  const HindiNav: Catalog := map[
    "nav.legalEase" := "LegalEase AI",
    "nav.upload" := "कानूनी दस्तावेज़ों का विश्लेषण करें",
    "nav.summary" := "सारांश",
    "nav.clauses" := "धाराएं",
    "nav.chat" := "चैट"
  ]
  // Hindi, upload (lines 324-332)
  const HindiUpload: Catalog := map[
    "upload.title" := "सेकंडों में, घंटों में नहीं",
    "upload.description" := "कोई भी कानूनी दस्तावेज़ अपलोड करें और तुरंत सारांश बनाएं, मुख्य धाराओं को हाइलाइट करें, या वास्तविक समय की अंतर्दृष्टि और विश्लेषण के लिए हमारे AI के साथ चैट करें।",
    "upload.button" := "दस्तावेज़ चुनें",
    "upload.uploading" := "अपलोड हो रहा है…",
    "upload.success" := "सफलतापूर्वक अपलोड किया गया",
    "upload.error" := "दस्तावेज़ अपलोड करने में विफल",
    "upload.remove" := "दस्तावेज़ हटाएं",
    "upload.removed" := "दस्तावेज़ हटा दिया गया",
    "upload.unsupported" := "असमर्थित फ़ाइल प्रारूप। समर्थित प्रारूप: {formats}"
  ]
  // Hindi, summary (lines 335-343)
  const HindiSummary: Catalog := map[
    "summary.title" := "सारांश",
    "summary.description" := "स्पष्ट और समझने में आसान सारांश",
    "summary.analysisIn" := "{language} में विश्लेषण",
    "summary.generate" := "सारांश जेनरेट करें",
    "summary.generating" := "जेनरेट हो रहा है…",
    "summary.noSummary" := "अभी तक कोई सारांश नहीं।",
    "summary.copy" := "कॉपी करें",
    "summary.download" := "PDF डाउनलोड करें",
    "summary.copied" := "क्लिपबोर्ड में कॉपी किया गया"
  ]
  // Hindi, clauses (lines 346-353)
  const HindiClauses: Catalog := map[
    "clauses.title" := "धाराएं",
    "clauses.description" := "मुख्य धाराओं और उनके निहितार्थों का विश्लेषण करें",
    "clauses.analyze" := "धाराओं का विश्लेषण करें",
    "clauses.analyzing" := "विश्लेषण हो रहा है…",
    "clauses.noClauses" := "अभी तक कोई धारा विश्लेषण नहीं।",
    "clauses.safe" := "सुरक्षित",
    "clauses.caution" := "सावधानी",
    "clauses.risky" := "जोखिमपूर्ण"
  ]
  // Hindi, chat (lines 356-361)
  const HindiChat: Catalog := map[
    "chat.title" := "चैट",
    "chat.description" := "अपने दस्तावेज़ के बारे में प्रश्न पूछें",
    "chat.placeholder" := "अपने दस्तावेज़ के बारे में एक प्रश्न पूछें...",
    "chat.send" := "भेजें",
    "chat.sending" := "भेजा जा रहा है…",
    "chat.noMessages" := "अभी तक कोई संदेश नहीं।"
  ]
  // Hindi, common (lines 364-370)
  const HindiCommon: Catalog := map[
    "common.uploadFirst" := "पहले एक दस्तावेज़ अपलोड करें",
    "common.error" := "एक त्रुटि हुई",
    "common.loading" := "लोड हो रहा है...",
    "common.close" := "बंद करें",
    "common.cancel" := "रद्द करें",
    "common.save" := "सहेजें",
    "common.delete" := "हटाएं"
  ]
  // Hindi, footer (lines 373-373)
  const HindiFooter: Catalog := map[
    "footer.disclaimer" := "⚠️ कानूनी सलाह नहीं। यह उपकरण शैक्षिक उद्देश्यों के लिए एक प्रोटोटाइप है।"
  ]
  // Hindi, language selector (lines 376-391)
  const HindiLanguages: Catalog := map[
    "language.selector" := "भाषा",
    "language.english" := "English",
    "language.hindi" := "हिन्दी",
    "language.bengali" := "বাংলা",
    "language.telugu" := "తెలుగు",
    "language.marathi" := "मराठी",
    "language.tamil" := "தமிழ்",
    "language.gujarati" := "ગુજરાતી",
    "language.kannada" := "ಕನ್ನಡ",
    "language.malayalam" := "മലയാളം",
    "language.punjabi" := "ਪੰਜਾਬੀ",
    "language.odia" := "ଓଡ଼ିଆ",
    "language.assamese" := "অসমীয়া",
    "language.spanish" := "Español",
    "language.french" := "Français",
    "language.german" := "Deutsch"
  ]

  /** The `hi` catalog. */
  const Hindi: Catalog :=
    HindiNav + HindiUpload + HindiSummary + HindiClauses + HindiChat + HindiCommon + HindiFooter + HindiLanguages

  // Marathi, navigation (lines 396-400)
  const MarathiNav: Catalog := map[
    "nav.legalEase" := "LegalEase AI",
    "nav.upload" := "कायदेशीर दस्तावेजांचे विश्लेषण करा",
    "nav.summary" := "सारांश",
    "nav.clauses" := "कलमे",
    "nav.chat" := "चॅट"
  ]
  // Marathi, upload (lines 403-411)
  const MarathiUpload: Catalog := map[
    "upload.title" := "सेकंदांमध्ये, तासांमध्ये नाही",
    "upload.description" := "कोणताही कायदेशीर दस्तावेज अपलोड करा आणि त्वरित सारांश तयार करा, मुख्य कलमे हायलाइट करा, किंवा वास्तविक वेळेच्या अंतर्दृष्टी आणि विश्लेषणासाठी आमच्या AI शी चॅट करा.",
    "upload.button" := "दस्तावेज निवडा",
    "upload.uploading" := "अपलोड होत आहे…",
    "upload.success" := "यशस्वीरित्या अपलोड केले",
    "upload.error" := "दस्तावेज अपलोड करण्यात अयशस्वी",
    "upload.remove" := "दस्तावेज काढा",
    "upload.removed" := "दस्तावेज काढले",
    "upload.unsupported" := "असमर्थित फाइल स्वरूप. समर्थित स्वरूप: {formats}"
  ]
  // Marathi, summary (lines 414-422)
  const MarathiSummary: Catalog := map[
    "summary.title" := "सारांश",
    "summary.description" := "स्पष्ट आणि समजण्यास सोपे सारांश",
    "summary.analysisIn" := "{language} मध्ये विश्लेषण",
    "summary.generate" := "सारांश तयार करा",
    "summary.generating" := "तयार होत आहे…",
    "summary.noSummary" := "अद्याप कोणताही सारांश नाही.",
    "summary.copy" := "कॉपी करा",
    "summary.download" := "PDF डाउनलोड करा",
    "summary.copied" := "क्लिपबोर्डमध्ये कॉपी केले"
  ]
  // Marathi, clauses (lines 425-432)
  const MarathiClauses: Catalog := map[
    "clauses.title" := "कलमे",
    "clauses.description" := "मुख्य कलमे आणि त्यांचे परिणाम विश्लेषित करा",
    "clauses.analyze" := "कलमांचे विश्लेषण करा",
    "clauses.analyzing" := "विश्लेषण होत आहे…",
    "clauses.noClauses" := "अद्याप कोणतेही कलम विश्लेषण नाही.",
    "clauses.safe" := "सुरक्षित",
    "clauses.caution" := "सावधानता",
    "clauses.risky" := "धोकादायक"
  ]
  // Marathi, chat (lines 435-440)
  const MarathiChat: Catalog := map[
    "chat.title" := "चॅट",
    "chat.description" := "आपल्या दस्तावेजाबद्दल प्रश्न विचारा",
    "chat.placeholder" := "आपल्या दस्तावेजाबद्दल एक प्रश्न विचारा...",
    "chat.send" := "पाठवा",
    "chat.sending" := "पाठवत आहे…",
    "chat.noMessages" := "अद्याप कोणतेही संदेश नाहीत."
  ]
  // Marathi, common (lines 443-449)
  const MarathiCommon: Catalog := map[
    "common.uploadFirst" := "प्रथम एक दस्तावेज अपलोड करा",
    "common.error" := "एक त्रुटी आली",
    "common.loading" := "लोड होत आहे...",
    "common.close" := "बंद करा",
    "common.cancel" := "रद्द करा",
    "common.save" := "जतन करा",
    "common.delete" := "काढा"
  ]
  // Marathi, footer (lines 452-452)
  const MarathiFooter: Catalog := map[
    "footer.disclaimer" := "⚠️ कायदेशीर सल्ला नाही. हे साधन शैक्षणिक हेतूंसाठी एक प्रोटोटाइप आहे."
  ]
  // Marathi, language selector (lines 455-458)
  const MarathiLanguages: Catalog := map[
    "language.selector" := "भाषा",
    "language.english" := "English",
    "language.hindi" := "हिन्दी",
    "language.marathi" := "मराठी"
  ]

  /** The `mr` catalog. */
  const Marathi: Catalog :=
    MarathiNav + MarathiUpload + MarathiSummary + MarathiClauses + MarathiChat + MarathiCommon + MarathiFooter + MarathiLanguages

  /** The whole table, keyed by language code (`translations`). */
  const Table: map<string, Catalog> := map[
    "en" := English,
    "es" := Spanish,
    "fr" := French,
    "de" := German,
    "hi" := Hindi,
    "mr" := Marathi
  ]

  /** The `mr` catalog has no `language.spanish` entry; one lemma per section
      keeps each absence proof to the entries of that section. */
  lemma MarathiLacksSpanishName()
    ensures "language.spanish" !in Marathi
  {
    MarathiNavLacksSpanishName();
    MarathiUploadLacksSpanishName();
    MarathiSummaryLacksSpanishName();
    MarathiClausesLacksSpanishName();
    MarathiChatLacksSpanishName();
    MarathiCommonLacksSpanishName();
    MarathiFooterLacksSpanishName();
    MarathiLanguagesLacksSpanishName();
  }

  lemma MarathiNavLacksSpanishName() ensures "language.spanish" !in MarathiNav {}
  lemma MarathiUploadLacksSpanishName() ensures "language.spanish" !in MarathiUpload {}
  lemma MarathiSummaryLacksSpanishName() ensures "language.spanish" !in MarathiSummary {}
  lemma MarathiClausesLacksSpanishName() ensures "language.spanish" !in MarathiClauses {}
  lemma MarathiChatLacksSpanishName() ensures "language.spanish" !in MarathiChat {}
  lemma MarathiCommonLacksSpanishName() ensures "language.spanish" !in MarathiCommon {}
  lemma MarathiFooterLacksSpanishName() ensures "language.spanish" !in MarathiFooter {}
  lemma MarathiLanguagesLacksSpanishName() ensures "language.spanish" !in MarathiLanguages {}

  /** The `en` catalog names Spanish `Español`. */
  lemma EnglishNamesSpanish()
    ensures "language.spanish" in English && English["language.spanish"] == "Español"
  {
    assert EnglishLanguages["language.spanish"] == "Español";
  }
}
