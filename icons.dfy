/** The icon components the site renders, as plain names. An icon is only
    ever compared or displayed, so a name is all the model needs. */
module Icons {
  datatype Icon =
    // categories
    | Layers | Server | Code | Smartphone | Database | GitBranch | Cloud | Terminal | Palette | Wrench
    // skills section headings and level badges
    | Layout | Award | Star | Zap
    // about tabs
    | User | Briefcase | GraduationCap | Lightbulb
    // contact methods
    | Mail | Phone | Github | Linkedin | Instagram | WhatsApp | Telegram | Line
}
