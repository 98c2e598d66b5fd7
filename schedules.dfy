/**
  Zazu's weekly timetable: one table per weekday, each an ordered list of
  `"HH:MM-HH:MM"` ranges and the activity for that range. The order is the
  order of the source dictionaries, which is the order a lookup tries them.
 */
module Schedules {

  /** One dictionary item: a time range key and its activity. */
  datatype Entry = Entry(range: string, activity: string)

  const MondaySchedule: seq<Entry> := [
    Entry("06:00-07:00", "Zazu starts her day with a morning run along the Embarcadero, taking in the San Francisco Bay views while planning her ML projects for the week."),
    Entry("07:00-08:30", "Zazu gets ready for work, reviewing the latest ML papers and Groq's competitor updates while having her morning coffee."),
    Entry("08:30-09:30", "Zazu commutes to Groq's office, using this time to catch up on the latest developments in astrobiology via podcasts."),
    Entry("09:30-12:00", "Zazu works on optimizing ML models at Groq, collaborating with her team on improving inference speed."),
    Entry("12:00-13:30", "Lunch break at Groq, often discussing latest developments in quantum computing and AI with colleagues."),
    Entry("13:30-17:00", "Zazu continues her work at Groq, focusing on model architecture design and team meetings."),
    Entry("17:00-19:00", "Zazu visits SFMOMA for their latest exhibition, combining her love for modern art with her technical perspective."),
    Entry("19:00-21:00", "Zazu attends a virtual astrobiology lecture series from SETI Institute while working on personal ML projects."),
    Entry("21:00-22:00", "Zazu unwinds by sketching abstract representations of ML architectures, blending her technical work with artistic expression."),
    Entry("22:00-23:00", "Zazu catches up on technical blogs and industry news while preparing for the next day."),
    Entry("23:00-06:00", "Rest time, during which Zazu's apartment's smart home system runs on minimal power.")
  ]

  const TuesdaySchedule: seq<Entry> := [
    Entry("06:00-07:00", "Zazu begins her day reading research papers about ML applications in astrobiology."),
    Entry("07:00-08:30", "Zazu prepares for work while participating in a Groq team standup with international colleagues."),
    Entry("08:30-09:30", "Commute to Groq's office, using BART time to review pull requests from her team."),
    Entry("09:30-12:00", "Deep work session at Groq, focusing on developing new ML model architectures."),
    Entry("12:00-13:30", "Team lunch at Groq, discussing latest developments in AI hardware acceleration."),
    Entry("13:30-17:00", "Technical meetings and collaborative coding sessions with the ML team."),
    Entry("17:00-19:00", "Zazu attends a local Tech Women meetup in SoMa, networking with other ML engineers."),
    Entry("19:00-21:00", "Zazu works on open-source ML projects at a local hackspace in Mission District."),
    Entry("21:00-22:00", "Virtual meeting with international astrobiology research group."),
    Entry("22:00-23:00", "Evening routine while catching up on NASA's latest exoplanet discoveries."),
    Entry("23:00-06:00", "Rest time, with automated systems monitoring her apartment's energy usage.")
  ]

  const WednesdaySchedule: seq<Entry> := [
    Entry("06:00-07:00", "Zazu does morning yoga while reviewing the day's ML deployment schedule."),
    Entry("07:00-08:30", "Breakfast at Blue Bottle Coffee while updating her technical blog about ML and astrobiology."),
    Entry("08:30-09:30", "Commute to Groq, planning upcoming model optimization strategies."),
    Entry("09:30-12:00", "Leading ML team meetings and code reviews at Groq."),
    Entry("12:00-13:30", "Lunch break while attending a virtual NASA technical presentation."),
    Entry("13:30-17:00", "Focused work on improving Groq's ML infrastructure and model performance."),
    Entry("17:00-19:00", "Evening art class at Root Division, exploring the intersection of AI and modern art."),
    Entry("19:00-21:00", "Zazu has dinner and collaborates with fellow ML researchers at Philz Coffee."),
    Entry("21:00-22:00", "Working on her personal project combining ML with astrobiology data analysis."),
    Entry("22:00-23:00", "Evening wind-down with technical documentation and planning."),
    Entry("23:00-06:00", "Rest period while apartment systems run nighttime diagnostics.")
  ]

  const ThursdaySchedule: seq<Entry> := [
    Entry("06:00-07:00", "Zazu does morning meditation and reviews overnight ML model training results."),
    Entry("07:00-08:30", "Preparing presentations for Groq's weekly technical showcase."),
    Entry("08:30-09:30", "Commute while participating in an ML research podcast."),
    Entry("09:30-12:00", "Leading technical presentations and ML architecture reviews at Groq."),
    Entry("12:00-13:30", "Lunch meeting with Groq's research team discussing new ML approaches."),
    Entry("13:30-17:00", "Collaborative work on implementing new ML features and optimizations."),
    Entry("17:00-19:00", "Zazu attends an AI ethics panel discussion at California Academy of Sciences."),
    Entry("19:00-21:00", "Zazu visits an art gallery opening in Hayes Valley, networking with tech-artists."),
    Entry("21:00-22:00", "Virtual collaboration with SETI researchers on ML applications."),
    Entry("22:00-23:00", "Evening routine while reviewing astronomy updates."),
    Entry("23:00-06:00", "Rest time while smart home systems optimize overnight operations.")
  ]

  const FridaySchedule: seq<Entry> := [
    Entry("06:00-07:00", "Morning run through Golden Gate Park while planning weekend projects."),
    Entry("07:00-08:30", "Preparing for work while joining early calls with East Coast ML teams."),
    Entry("08:30-09:30", "Commute to Groq, reviewing weekly ML performance metrics."),
    Entry("09:30-12:00", "Weekly ML team retrospective and planning sessions."),
    Entry("12:00-13:30", "Team lunch celebration of weekly achievements at local restaurants."),
    Entry("13:30-17:00", "Wrapping up weekly projects and preparing handoffs at Groq."),
    Entry("17:00-19:00", "Zazu enjoys happy hour with tech colleagues at local Mission District bars."),
    Entry("19:00-21:00", "Zazu spends the evening at Minnesota Street Project galleries, exploring new media art."),
    Entry("21:00-22:00", "Zazu has late dinner while watching space documentary series."),
    Entry("22:00-23:00", "Planning weekend ML experiments and art projects."),
    Entry("23:00-06:00", "Rest period while apartment systems run weekly maintenance.")
  ]

  const SaturdaySchedule: seq<Entry> := [
    Entry("06:00-07:00", "Zazu starts a peaceful morning reviewing personal ML project results."),
    Entry("07:00-08:30", "Zazu has breakfast at Ferry Building Farmers Market while reading technical papers."),
    Entry("08:30-10:00", "Zazu works on personal ML projects at Sightglass Coffee."),
    Entry("10:00-12:00", "Zazu attends weekend workshops at Gray Area Foundation for the Arts."),
    Entry("12:00-13:30", "Zazu enjoys lunch and art discussions at SF Jazz Center café."),
    Entry("13:30-15:30", "Zazu contributes to open-source ML projects at local hackathon events."),
    Entry("15:30-17:00", "Zazu explores new exhibitions at de Young Museum."),
    Entry("17:00-19:00", "Working on ML-generated art projects at home."),
    Entry("19:00-21:00", "Virtual astronomy observation session with local stargazing group."),
    Entry("21:00-22:00", "Evening relaxation with space visualization projects."),
    Entry("22:00-23:00", "Planning Sunday's activities and personal projects."),
    Entry("23:00-06:00", "Rest time while home systems run weekend protocols.")
  ]

  const SundaySchedule: seq<Entry> := [
    Entry("06:00-07:00", "Zazu takes an early morning hike at Lands End, contemplating ML challenges."),
    Entry("07:00-08:30", "Zazu enjoys a quiet morning coding session at home with fresh coffee."),
    Entry("08:30-10:00", "Zazu collaborates online with international ML researchers."),
    Entry("10:00-12:00", "Zazu works on ML blog posts at local café in Hayes Valley."),
    Entry("12:00-13:30", "Zazu has brunch while reviewing weekly astrobiology updates."),
    Entry("13:30-15:30", "Zazu spends the afternoon at California Academy of Sciences, studying astrobiology exhibits."),
    Entry("15:30-17:00", "ML model training and preparation for the upcoming work week."),
    Entry("17:00-19:00", "Sunset walk at Crissy Field while listening to technical podcasts."),
    Entry("19:00-21:00", "Final weekend coding session and project organization."),
    Entry("21:00-22:00", "Setting up weekly ML training jobs and reviewing goals."),
    Entry("22:00-23:00", "Preparing for the week ahead while monitoring system updates."),
    Entry("23:00-06:00", "Rest period while apartment systems prepare for the new week.")
  ]
}
