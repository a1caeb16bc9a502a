/**
 * The debug-output callback of the demo: three lookup tables that turn the
 * enumerants of GL_ARB_debug_output (chapter 20, "Debug Output", of the
 * OpenGL 4.6 core profile specification) into labels, and the decision that
 * the callback takes for each message: ignore it, report it, or report it and
 * raise.
 */
module DebugOutput {
  import opened Wrappers

  /** GLenum and GLuint are unsigned 32-bit integers. */
  type GLenum = x: int | 0 <= x < 0x1_0000_0000
  type GLuint = x: int | 0 <= x < 0x1_0000_0000

  // Message sources
  const GL_DEBUG_SOURCE_API: GLenum := 0x8246
  const GL_DEBUG_SOURCE_WINDOW_SYSTEM: GLenum := 0x8247
  const GL_DEBUG_SOURCE_SHADER_COMPILER: GLenum := 0x8248
  const GL_DEBUG_SOURCE_THIRD_PARTY: GLenum := 0x8249
  const GL_DEBUG_SOURCE_APPLICATION: GLenum := 0x824A
  const GL_DEBUG_SOURCE_OTHER: GLenum := 0x824B

  // Message types; the ARB name of the error type has the core name's value
  const GL_DEBUG_TYPE_ERROR: GLenum := 0x824C
  const GL_DEBUG_TYPE_ERROR_ARB: GLenum := 0x824C
  const GL_DEBUG_TYPE_DEPRECATED_BEHAVIOR: GLenum := 0x824D
  const GL_DEBUG_TYPE_UNDEFINED_BEHAVIOR: GLenum := 0x824E
  const GL_DEBUG_TYPE_PORTABILITY: GLenum := 0x824F
  const GL_DEBUG_TYPE_PERFORMANCE: GLenum := 0x8250
  const GL_DEBUG_TYPE_OTHER: GLenum := 0x8251

  // Message severities
  const GL_DEBUG_SEVERITY_HIGH: GLenum := 0x9146
  const GL_DEBUG_SEVERITY_MEDIUM: GLenum := 0x9147
  const GL_DEBUG_SEVERITY_LOW: GLenum := 0x9148
  const GL_DEBUG_SEVERITY_NOTIFICATION: GLenum := 0x826B

  /** The label every table gives to a value it does not list. */
  const NOT_AVAILABLE: string := "n/a"

  const DEBUG_SOURCES: set<GLenum> :=
    {GL_DEBUG_SOURCE_API, GL_DEBUG_SOURCE_WINDOW_SYSTEM, GL_DEBUG_SOURCE_SHADER_COMPILER,
     GL_DEBUG_SOURCE_THIRD_PARTY, GL_DEBUG_SOURCE_APPLICATION, GL_DEBUG_SOURCE_OTHER}

  const DEBUG_TYPES: set<GLenum> :=
    {GL_DEBUG_TYPE_ERROR, GL_DEBUG_TYPE_DEPRECATED_BEHAVIOR, GL_DEBUG_TYPE_UNDEFINED_BEHAVIOR,
     GL_DEBUG_TYPE_PORTABILITY, GL_DEBUG_TYPE_PERFORMANCE, GL_DEBUG_TYPE_OTHER}

  /** The severities the severity table names; NOTIFICATION is not one of them. */
  const LABELLED_SEVERITIES: set<GLenum> :=
    {GL_DEBUG_SEVERITY_HIGH, GL_DEBUG_SEVERITY_MEDIUM, GL_DEBUG_SEVERITY_LOW}

  /** getStringForSource */
  function SourceLabel(source: GLenum): (name: string)
    ensures name != NOT_AVAILABLE <==> source in DEBUG_SOURCES
  {
    if source == GL_DEBUG_SOURCE_API then "API"
    else if source == GL_DEBUG_SOURCE_WINDOW_SYSTEM then "Window System"
    else if source == GL_DEBUG_SOURCE_SHADER_COMPILER then "Shader Compiler"
    else if source == GL_DEBUG_SOURCE_THIRD_PARTY then "Third Party"
    else if source == GL_DEBUG_SOURCE_APPLICATION then "Application"
    else if source == GL_DEBUG_SOURCE_OTHER then "Other"
    else NOT_AVAILABLE
  }

  /** getStringForSeverity */
  function SeverityLabel(severity: GLenum): (name: string)
    ensures name != NOT_AVAILABLE <==> severity in LABELLED_SEVERITIES
  {
    if severity == GL_DEBUG_SEVERITY_HIGH then "HIGH!"
    else if severity == GL_DEBUG_SEVERITY_MEDIUM then "Medium"
    else if severity == GL_DEBUG_SEVERITY_LOW then "Low"
    else NOT_AVAILABLE
  }

  /** getStringForType */
  function TypeLabel(messageType: GLenum): (name: string)
    ensures name != NOT_AVAILABLE <==> messageType in DEBUG_TYPES
  {
    if messageType == GL_DEBUG_TYPE_ERROR then "Error"
    else if messageType == GL_DEBUG_TYPE_DEPRECATED_BEHAVIOR then "Deprecated Behaviour"
    else if messageType == GL_DEBUG_TYPE_UNDEFINED_BEHAVIOR then "Undefined Behaviour"
    else if messageType == GL_DEBUG_TYPE_PORTABILITY then "Portability Issue"
    else if messageType == GL_DEBUG_TYPE_PERFORMANCE then "Performance Issue"
    else if messageType == GL_DEBUG_TYPE_OTHER then "Other"
    else NOT_AVAILABLE
  }

  /** Each of the six sources has its own label. */
  lemma SourceLabelTable()
    ensures SourceLabel(GL_DEBUG_SOURCE_API) == "API"
    ensures SourceLabel(GL_DEBUG_SOURCE_WINDOW_SYSTEM) == "Window System"
    ensures SourceLabel(GL_DEBUG_SOURCE_SHADER_COMPILER) == "Shader Compiler"
    ensures SourceLabel(GL_DEBUG_SOURCE_THIRD_PARTY) == "Third Party"
    ensures SourceLabel(GL_DEBUG_SOURCE_APPLICATION) == "Application"
    ensures SourceLabel(GL_DEBUG_SOURCE_OTHER) == "Other"
    ensures forall s: GLenum :: s !in DEBUG_SOURCES ==> SourceLabel(s) == NOT_AVAILABLE
  {
  }

  /** Each of the three named severities has its own label; NOTIFICATION has none. */
  lemma SeverityLabelTable()
    ensures SeverityLabel(GL_DEBUG_SEVERITY_HIGH) == "HIGH!"
    ensures SeverityLabel(GL_DEBUG_SEVERITY_MEDIUM) == "Medium"
    ensures SeverityLabel(GL_DEBUG_SEVERITY_LOW) == "Low"
    ensures SeverityLabel(GL_DEBUG_SEVERITY_NOTIFICATION) == NOT_AVAILABLE
    ensures forall s: GLenum :: s !in LABELLED_SEVERITIES ==> SeverityLabel(s) == NOT_AVAILABLE
  {
  }

  /** Each of the six types has its own label. */
  lemma TypeLabelTable()
    ensures TypeLabel(GL_DEBUG_TYPE_ERROR) == "Error"
    ensures TypeLabel(GL_DEBUG_TYPE_DEPRECATED_BEHAVIOR) == "Deprecated Behaviour"
    ensures TypeLabel(GL_DEBUG_TYPE_UNDEFINED_BEHAVIOR) == "Undefined Behaviour"
    ensures TypeLabel(GL_DEBUG_TYPE_PORTABILITY) == "Portability Issue"
    ensures TypeLabel(GL_DEBUG_TYPE_PERFORMANCE) == "Performance Issue"
    ensures TypeLabel(GL_DEBUG_TYPE_OTHER) == "Other"
    ensures forall t: GLenum :: t !in DEBUG_TYPES ==> TypeLabel(t) == NOT_AVAILABLE
  {
  }

  /** A printed source label identifies the source it was printed for. */
  lemma SourceLabelInjective(a: GLenum, b: GLenum)
    requires a in DEBUG_SOURCES && b in DEBUG_SOURCES
    requires SourceLabel(a) == SourceLabel(b)
    ensures a == b
  {
  }

  /** A printed type label identifies the type it was printed for. */
  lemma TypeLabelInjective(a: GLenum, b: GLenum)
    requires a in DEBUG_TYPES && b in DEBUG_TYPES
    requires TypeLabel(a) == TypeLabel(b)
    ensures a == b
  {
  }

  /** The lines the callback writes to the error stream for one message. */
  datatype Report = Report(
    typeLabel: string,
    sourceLabel: string,
    id: GLuint,
    severityLabel: string,
    message: string)

  /** What one call of the callback does: the report it writes, if any, and
      whether it then raises. A raise happens after the report is written. */
  datatype Outcome = Outcome(report: Option<Report>, raises: bool)

  /** debugCallbackARB: only NOTIFICATION messages are reported, and a reported
      message of the error type raises. The length and user-pointer arguments
      are unused by the source and are left out. */
  function DebugCallback(source: GLenum, messageType: GLenum, id: GLuint, severity: GLenum, message: string): (o: Outcome)
    ensures o.report.Some? <==> severity == GL_DEBUG_SEVERITY_NOTIFICATION
    ensures o.raises <==> severity == GL_DEBUG_SEVERITY_NOTIFICATION && messageType == GL_DEBUG_TYPE_ERROR_ARB
    ensures o.raises ==> o.report.Some?
    ensures o.report.Some? ==>
      o.report.value == Report(TypeLabel(messageType), SourceLabel(source), id, NOT_AVAILABLE, message)
  {
    if severity != GL_DEBUG_SEVERITY_NOTIFICATION then
      Outcome(None, false)
    else
      var report := Report(TypeLabel(messageType), SourceLabel(source), id, SeverityLabel(severity), message);
      Outcome(Some(report), messageType == GL_DEBUG_TYPE_ERROR_ARB)
  }

  /** The most serious message there is, a HIGH-severity error, is dropped
      without a report and without a raise. */
  lemma HighSeverityErrorIsDropped(source: GLenum, id: GLuint, message: string)
    ensures DebugCallback(source, GL_DEBUG_TYPE_ERROR, id, GL_DEBUG_SEVERITY_HIGH, message) == Outcome(None, false)
  {
  }

  /** No report ever carries one of the three severity labels. */
  lemma ReportedSeverityIsNeverLabelled(source: GLenum, messageType: GLenum, id: GLuint, severity: GLenum, message: string)
    requires DebugCallback(source, messageType, id, severity, message).report.Some?
    ensures DebugCallback(source, messageType, id, severity, message).report.value.severityLabel !in {"HIGH!", "Medium", "Low"}
  {
  }

  /** Whenever the callback raises, the report it wrote before is typed "Error". */
  lemma RaiseFollowsErrorReport(source: GLenum, messageType: GLenum, id: GLuint, severity: GLenum, message: string)
    requires DebugCallback(source, messageType, id, severity, message).raises
    ensures DebugCallback(source, messageType, id, severity, message).report.value.typeLabel == "Error"
  {
  }
}
