/** The reminder and reschedule texts. Each is a fixed template with the
    row's values put in; a missing date renders as "sin fecha" and a missing
    reassigned professional as "No asignado". */
module Messages {
  import opened Wrappers
  import opened Dates
  import opened Appointments

  function NoDate(): string { "sin fecha" }
  function NotAssigned(): string { "No asignado" }

  /** The fixed text of a notice around its four fields: the opening
      before the patient's name, the headings before the date, the
      professional and the reason, and the closing after the reason. */
  datatype Template = Template(opening: string, dateHeading: string, professionalHeading: string,
                               reasonHeading: string, closing: string)

  /** The template of each kind of notice. Both name the professional and
      the reason under the same headings. */
  function TemplateFor(kind: Kind): Template {
    match kind
    case Reminder =>
      Template(
        "\U{1F3E5} CESFAM Cholchol - Recordatorio de Cita \U{1F3E5}\n\nHola ",
        ",\n\nLe recordamos que tiene programada una cita m\U{E9}dica:\n\n\U{1F4C5} Fecha: ",
        "\n\U{1F468}\U{200D}\U{2695}\U{FE0F} Profesional: ",
        "\n\U{1F4CB} Motivo: ",
        "\n"
        + "\n"
        + "\U{1F4CD} Lugar: Centro de Salud Familiar CESFAM Cholchol\n"
        + "Calle Anibal Pinto 552, Cholchol\n"
        + "\n"
        + "\U{1F4CB} Recomendaciones:\n"
        + "- Llegar 15 minutos antes de su hora de cita\n"
        + "- Traer su c\U{E9}dula de identidad y carnet de salud\n"
        + "- Si no puede asistir, notificar con anticipaci\U{F3}n\n"
        + "\n"
        + "Para confirmar, reagendar o consultar:\n"
        + "\U{1F4E7} Email: cholcholsome@gmail.com\n"
        + "\n"
        + "*Este es un mensaje autom\U{E1}tico, por favor no responder directamente.*")
    case Change =>
      Template(
        "\U{1F3E5} CESFAM Cholchol - Cambio de Cita \U{1F3E5}\n\nHola ",
        ",\n\nSu cita ha sido reprogramada:\n\n\U{1F4C5} Nueva Fecha: ",
        "\n\U{1F468}\U{200D}\U{2695}\U{FE0F} Profesional: ",
        "\n\U{1F4CB} Motivo: ",
        "\n\n*Mensaje autom\U{E1}tico*")
  }

  /** A template with its four fields put in. */
  function Fill(t: Template, name: string, date: string, professional: string, reason: string): string {
    t.opening + (name + (t.dateHeading + (date + (t.professionalHeading + (professional + (t.reasonHeading + (reason + t.closing)))))))
  }

  /** A nullable date as the messages show it. */
  function DateText(d: Option<Date>): (s: string)
    ensures d.None? ==> s == NoDate()
    ensures d.Some? ==> |s| == 10 && s[2] == '/' && s[5] == '/'
  {
    match d
    case None => NoDate()
    case Some(day) => FormatDMY(day)
  }

  /** A shown date reads back as the same date. */
  lemma DateTextReadsBack(d: Option<Date>)
    requires d.Some?
    ensures ParseDMY(DateText(d)) == d
  {
    FormatDMYRoundTrip(d.value);
  }

  /** The reminder for a row: its name, its appointment date, its
      professional and its reason. */
  function ReminderMessage(r: Row): string {
    Fill(TemplateFor(Reminder), r.name, DateText(r.appointment), r.professional, r.reason)
  }

  /** The professional a reschedule notice names. */
  function ChangeProfessional(r: Row): (p: string)
    ensures r.reassigned.Some? ==> p == r.reassigned.value
    ensures r.reassigned.None? ==> p == NotAssigned()
  {
    if r.reassigned.Some? then r.reassigned.value else NotAssigned()
  }

  /** The reschedule notice for a row: its name, its NEW date, its reassigned
      professional and its reason. */
  function ChangeMessage(r: Row): string {
    Fill(TemplateFor(Change), r.name, DateText(r.newDate), ChangeProfessional(r), r.reason)
  }

  function MessageFor(kind: Kind, r: Row): string {
    match kind
    case Reminder => ReminderMessage(r)
    case Change => ChangeMessage(r)
  }

  /** A rendered date is recognisable at the head of any text it starts:
      the third character is a slash exactly for a real date, whose first
      ten characters then give the date back. */
  lemma {:induction false} DateTextHead(d: Option<Date>, x: string)
    ensures (DateText(d) + x)[2] == (if d.Some? then '/' else 'n')
    ensures d.Some? ==> ParseDMY((DateText(d) + x)[..10]) == d
  {
    if d.Some? {
      assert (DateText(d) + x)[..10] == DateText(d);
      DateTextReadsBack(d);
    }
  }

  /** Equal texts with equal heads have equal tails. */
  lemma DropCommonHead(p: string, u: string, v: string)
    requires p + u == p + v
    ensures u == v
  {
    assert u == (p + u)[|p|..];
    assert v == (p + v)[|p|..];
  }

  /** The date field at the head of a text determines the date: two
      rendered dates never read alike. */
  lemma {:induction false} DateFieldDetermines(a: Option<Date>, b: Option<Date>, x: string, y: string)
    requires DateText(a) + x == DateText(b) + y
    ensures a == b
  {
    DateTextHead(a, x);
    DateTextHead(b, y);
  }

  /** For one name, a filled template shows which date was put in: two
      fillings that read alike have the same date. For the reminder the date
      is the appointment date, for the reschedule notice the new date, so a
      patient's notice tells which appointment it is about. */
  lemma FillShowsDate(t: Template, name: string, d1: Option<Date>, d2: Option<Date>,
                      p1: string, p2: string, s1: string, s2: string)
    requires Fill(t, name, DateText(d1), p1, s1) == Fill(t, name, DateText(d2), p2, s2)
    ensures d1 == d2
  {
    var x1 := t.professionalHeading + (p1 + (t.reasonHeading + (s1 + t.closing)));
    var x2 := t.professionalHeading + (p2 + (t.reasonHeading + (s2 + t.closing)));
    DropCommonHead(t.opening, name + (t.dateHeading + (DateText(d1) + x1)), name + (t.dateHeading + (DateText(d2) + x2)));
    DropCommonHead(name, t.dateHeading + (DateText(d1) + x1), t.dateHeading + (DateText(d2) + x2));
    DropCommonHead(t.dateHeading, DateText(d1) + x1, DateText(d2) + x2);
    DateFieldDetermines(d1, d2, x1, x2);
  }

  /** Two reminders to a patient of the same name read alike only when they
      give the same appointment date. */
  lemma ReminderShowsDate(a: Row, b: Row)
    requires a.name == b.name && ReminderMessage(a) == ReminderMessage(b)
    ensures a.appointment == b.appointment
  {
    FillShowsDate(TemplateFor(Reminder), a.name, a.appointment, b.appointment,
                  a.professional, b.professional, a.reason, b.reason);
  }

  /** Two reschedule notices to a patient of the same name read alike only
      when they give the same new date. */
  lemma ChangeShowsNewDate(a: Row, b: Row)
    requires a.name == b.name && ChangeMessage(a) == ChangeMessage(b)
    ensures a.newDate == b.newDate
  {
    FillShowsDate(TemplateFor(Change), a.name, a.newDate, b.newDate,
                  ChangeProfessional(a), ChangeProfessional(b), a.reason, b.reason);
  }
}
