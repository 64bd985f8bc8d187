/** The fixed paragraph corpus of the typing trainer.
    The source keeps it as three subclasses of the text mode (easy, medium and
    hard) whose constructors fill a ten-entry paragraph array; here the
    difficulty is a tier index into one constant table. */
module Corpus {

  /** Number of difficulty tiers: 0 easy, 1 medium, 2 hard. */
  const TierCount: nat := 3

  /** Number of paragraphs per tier (the size of the source's paragraph array). */
  const ParagraphCount: nat := 10

  /** Paragraphs of the easy tier (main.cpp:114-123). */
  const Easy: seq<string> := [
    "The quick brown fox jumps over the lazy dog. This is a simple test for typing speed.",
    "Learning to type quickly and accurately is an important skill in today's digital world.",
    "The sun rises in the east and sets in the west. This is a basic fact about our planet.",
    "Practice makes perfect. The more you type, the better you will become at it.",
    "A good typing speed can help you work more efficiently and save time.",
    "The keyboard is your tool. Learn to use it well and you will be more productive.",
    "Typing is a skill that everyone should learn. It is useful in many jobs.",
    "The computer is a powerful tool. Learning to type helps you use it better.",
    "Speed and accuracy are both important when typing. Practice both skills.",
    "The internet has changed how we work. Good typing skills are essential."
  ]

  /** Paragraphs of the medium tier (main.cpp:132-141). */
  const Medium: seq<string> := [
    "Programming is the process of creating a set of instructions that tell a computer how to perform a task. Programming can be done using a variety of computer programming languages.",
    "Computer science is the study of computers and computational systems. It involves both theoretical and practical aspects of computing.",
    "Algorithms are step-by-step procedures for solving problems. They are fundamental to computer programming and data processing.",
    "Data structures are ways of organizing and storing data in a computer. They help in efficient data access and modification.",
    "Software development is the process of creating computer programs. It involves writing code, testing, and debugging.",
    "The internet is a global network of computers. It allows people to share information and communicate across the world.",
    "Artificial intelligence is the simulation of human intelligence by machines. It includes learning, reasoning, and self-correction.",
    "Cybersecurity is the practice of protecting systems and networks from digital attacks. It is crucial in today's connected world.",
    "Cloud computing allows users to access computing resources over the internet. It provides flexibility and scalability.",
    "Mobile applications have become essential in our daily lives. They help us communicate, work, and entertain ourselves."
  ]

  /** Paragraphs of the hard tier (main.cpp:150-159). */
  const Hard: seq<string> := [
    "Object-oriented programming (OOP) is a programming paradigm based on the concept of objects, which can contain data and code: data in the form of fields, and code in the form of procedures. A feature of objects is that an object's own procedures can access and often modify the data fields of itself.",
    "Machine learning is a subset of artificial intelligence that focuses on building systems that can learn from and make decisions based on data. It involves the development of algorithms that can identify patterns and make predictions without being explicitly programmed.",
    "Quantum computing is a type of computing that uses quantum-mechanical phenomena, such as superposition and entanglement, to perform operations on data. It has the potential to solve certain problems much faster than classical computers.",
    "Blockchain technology is a decentralized, distributed ledger that records the provenance of a digital asset. It is most notable for its role in cryptocurrency systems, such as Bitcoin, for maintaining a secure and decentralized record of transactions.",
    "Neural networks are computing systems inspired by the biological neural networks that constitute animal brains. They are used in machine learning to recognize patterns and make decisions based on input data.",
    "The Internet of Things (IoT) refers to the network of physical objects that are embedded with sensors, software, and other technologies for the purpose of connecting and exchanging data with other devices and systems over the internet.",
    "Virtual reality (VR) is a simulated experience that can be similar to or completely different from the real world. It uses computer technology to create a simulated environment that can be explored and interacted with by a person.",
    "Augmented reality (AR) is an interactive experience of a real-world environment where the objects that reside in the real world are enhanced by computer-generated perceptual information.",
    "Big data refers to extremely large data sets that may be analyzed computationally to reveal patterns, trends, and associations, especially relating to human behavior and interactions.",
    "Cybersecurity frameworks provide a structured approach to managing cybersecurity risk. They help organizations identify, protect, detect, respond to, and recover from cyber threats."
  ]

  /** The whole table, indexed by tier. */
  const Tiers: seq<seq<string>> := [Easy, Medium, Hard]

  /** One tier as the source's constructors leave it: exactly ten
      paragraphs, none of them empty. */
  predicate WellFormedTier(p: seq<string>)
  {
    |p| == ParagraphCount && forall i :: 0 <= i < |p| ==> |p[i]| > 0
  }

  /** The paragraph array a text mode of the given tier is built with. */
  function Paragraphs(tier: nat): (p: seq<string>)
    requires tier < TierCount
    ensures WellFormedTier(p)
  {
    Tiers[tier]
  }
}
