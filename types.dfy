/** The records of the application (types/index.ts). Optional fields are `Option`s. */
module Types {
  import opened Wrappers

  datatype User = User(id: string, name: string, email: string, password: Option<string>)

  /** A user record without its password: what a session keeps. */
  datatype SafeUser = SafeUser(id: string, name: string, email: string)

  datatype Education = Education(level: string, stream: string, institution: Option<string>, year: Option<string>)

  datatype Experience = Experience(role: string, company: string, startDate: string, endDate: string, description: string)

  datatype Internship = Internship(role: string, company: string, duration: string, description: string)

  datatype Project = Project(title: string, description: string, technologies: seq<string>, link: Option<string>)

  datatype Certification = Certification(name: string, issuer: string, date: string)

  datatype Course = Course(name: string, institution: string, date: string)

  datatype SocialProfile = SocialProfile(platform: string, url: string)

  datatype Contact = Contact(phone: string, email: string, address: string)

  datatype Personal = Personal(dob: string, gender: string, fatherName: string, motherName: string)

  datatype Profile = Profile(
    about: string,
    education: seq<Education>,
    experience: seq<Experience>,
    internships: seq<Internship>,
    projects: seq<Project>,
    technicalSkills: seq<string>,
    skills: seq<string>,
    socialProfiles: seq<SocialProfile>,
    accomplishments: seq<string>,
    contact: Contact,
    languages: seq<string>,
    personal: Personal,
    certificates: seq<Certification>,
    courses: seq<Course>,
    extracurricular: seq<string>,
    workshops: seq<string>,
    conferences: seq<string>,
    theme: Option<string>,
    profilePhoto: Option<string>)

  datatype Role = UserRole | ModelRole

  datatype ChatMessage = ChatMessage(id: string, role: Role, content: string, timestamp: int)

  /** The profile the editor starts from: every list empty, every text blank. */
  function EmptyProfile(): Profile {
    Profile("", [], [], [], [], [], [], [], [], Contact("", "", ""), [],
            Personal("", "", "", ""), [], [], [], [], [], None, None)
  }
}
