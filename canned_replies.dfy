/** The canned answers of the chat widget, character for character as the
    source file holds them: its emoji and bullets were saved double-encoded
    (UTF-8 bytes read as Windows-1252), and the literals keep those code
    points. Each source line ends in a newline; long lines are written as
    several literals. */
module CannedReplies {
  import opened KnowledgeBase

  /** The canned answers, one per keyword test of the chain, in its order. */
  datatype Topic =
    | Greeting | Pricing | Management | SetupOnly | SetupDuration | Setup
    | Custom | Industry | Support | Contact

  /** The text of each canned answer. */
  function TopicText(topic: Topic): string
  {
    match topic
    case Greeting =>
      "Hello! I'm here to help you learn about ZeroInputAI's "
      + "automation services. We offer 6 main automation types, "
      + "custom solutions, and 24-hour setup. What specific "
      + "automation are you interested in?"
    case Pricing =>
      "Great question! We offer free automation templates (JSON "
      + "files) that you can implement yourself, OR we can "
      + "professionally set them up and manage them for you.\n"
      + "\n"
      + "Here's our pricing for professional implementation:\n"
      + "\n"
      + "\U{00F0}\U{0178}\U{00A4}\U{2013} Customer Service Chatbot\n"
      + "Setup: $2,500 (one-time)\n"
      + "Management: $497/month\n"
      + "Includes 24/7 response system, FAQ training, escalation "
      + "rules\n"
      + "\n"
      + "\U{00F0}\U{0178}\U{017D}\U{00AF} Lead Generation Funnel\n"
      + "Setup: $3,500 (one-time)\n"
      + "Management: $797/month\n"
      + "Includes multi-channel capture, lead scoring, CRM "
      + "integration\n"
      + "\n"
      + "\U{00F0}\U{0178}\U{201C}\U{00B1} Social Media Scheduler\n"
      + "Setup: $2,500 (one-time)\n"
      + "Management: $497/month\n"
      + "Includes multi-platform posting, content calendar, "
      + "analytics\n"
      + "\n"
      + "\U{00F0}\U{0178}\U{201C}\U{00A7} Email Campaign Automation\n"
      + "Setup: $2,500 (one-time)\n"
      + "Management: $497/month\n"
      + "Includes drip campaigns, segmentation, A/B testing\n"
      + "\n"
      + "\U{00F0}\U{0178}\U{201C}\U{00A6} Inventory Management\n"
      + "Setup: $3,500 (one-time)\n"
      + "Management: $797/month\n"
      + "Includes stock tracking, reorder automation, supplier "
      + "management\n"
      + "\n"
      + "\U{00F0}\U{0178}\U{201C}\U{2026} Appointment Scheduler\n"
      + "Setup: $4,500 (one-time)\n"
      + "Management: $997/month\n"
      + "Includes calendar sync, payment processing, client "
      + "portal\n"
      + "\n"
      + "\U{00F0}\U{0178}\U{2019}\U{00B0} Save 20% on setup fees when purchasing 3+ "
      + "automations!\n"
      + "All plans include ongoing optimization and support. No "
      + "contracts - cancel anytime with 30-day notice.\n"
      + "Want to try before you buy? Get the free templates "
      + "first!"
    case Management =>
      "Monthly management includes system monitoring, "
      + "performance optimization, troubleshooting, updates, and "
      + "priority support. We ensure your automation runs "
      + "smoothly 24/7."
    case SetupOnly =>
      "Yes! You can purchase setup-only. However, most clients "
      + "find the monthly management valuable for ongoing "
      + "optimization and support."
    case SetupDuration =>
      "Setup typically takes 3-5 business days after receiving "
      + "your requirements. Complex implementations may take up "
      + "to 7 days."
    case Setup =>
      "Setup is incredibly fast - just 24 hours! Here's how it "
      + "works:\n"
      + "\n"
      + "1. \U{00E2}\U{00B1}\U{00EF}\U{00B8} **24-hour turnaround** from order to live "
      + "automation\n"
      + "2. \U{00F0}\U{0178}\U{201C}\U{2039} **Two setup options:**\n"
      + "   - Fill out our form with API keys/credentials "
      + "(included)\n"
      + "   - Let us handle everything for you (additional fee)\n"
      + "3. \U{00F0}\U{0178}\U{201D}\U{00A7} **We handle all technical setup**\n"
      + "4. \U{00E2}\U{0153}\U{2026} **Testing and go-live within 24 hours**\n"
      + "\n"
      + "No technical knowledge required on your end. Which "
      + "automation are you considering?"
    case Custom =>
      "We specialize in custom automations! " + CustomAutomations + "\n"
      + "\n"
      + "Some examples of custom automations we've built:\n"
      + "\U{00E2}\U{20AC}\U{00A2} CRM data synchronization\n"
      + "\U{00E2}\U{20AC}\U{00A2} Invoice generation and processing  \n"
      + "\U{00E2}\U{20AC}\U{00A2} Report automation and distribution\n"
      + "\U{00E2}\U{20AC}\U{00A2} API integrations between platforms\n"
      + "\U{00E2}\U{20AC}\U{00A2} Workflow approvals and notifications\n"
      + "\n"
      + "Custom pricing depends on complexity. Would you like to "
      + "schedule a consultation to discuss your specific needs?"
    case Industry =>
        Industries + "\n"
      + "\n"
      + "We've successfully automated processes for:\n"
      + "\U{00E2}\U{20AC}\U{00A2} E-commerce stores\n"
      + "\U{00E2}\U{20AC}\U{00A2} Service businesses  \n"
      + "\U{00E2}\U{20AC}\U{00A2} SaaS companies\n"
      + "\U{00E2}\U{20AC}\U{00A2} Healthcare practices\n"
      + "\U{00E2}\U{20AC}\U{00A2} Real estate agencies\n"
      + "\U{00E2}\U{20AC}\U{00A2} Manufacturing companies\n"
      + "\U{00E2}\U{20AC}\U{00A2} And many more!\n"
      + "\n"
      + "Every business has unique automation opportunities. What "
      + "type of business are you in?"
    case Support =>
      "Our ongoing support includes:\n"
      + "\n"
      + "\U{00F0}\U{0178}\U{201D}\U{00A7} **Monthly Maintenance Fee Covers:**\n"
      + "\U{00E2}\U{20AC}\U{00A2} Apps and token management\n"
      + "\U{00E2}\U{20AC}\U{00A2} Credits for automation runs\n"
      + "\U{00E2}\U{20AC}\U{00A2} Error handling and troubleshooting\n"
      + "\U{00E2}\U{20AC}\U{00A2} Performance monitoring\n"
      + "\U{00E2}\U{20AC}\U{00A2} Updates and optimizations\n"
      + "\n"
      + "\U{00F0}\U{0178}\U{201C}\U{017E} **Support Options:**\n"
      + "\U{00E2}\U{20AC}\U{00A2} Priority email support\n"
      + "\U{00E2}\U{20AC}\U{00A2} Monthly check-ins\n"
      + "\U{00E2}\U{20AC}\U{00A2} Emergency troubleshooting\n"
      + "\U{00E2}\U{20AC}\U{00A2} Performance reports\n"
      + "\n"
      + "We ensure your automations run smoothly 24/7. Any "
      + "specific support questions?"
    case Contact =>
      "I'd love to connect you with our team! Here's how to get "
      + "started:\n"
      + "\n"
      + "\U{00F0}\U{0178}\U{201C}\U{017E} **Free Consultation Options:**\n"
      + "\U{00E2}\U{20AC}\U{00A2} Schedule a strategy call to discuss your needs\n"
      + "\U{00E2}\U{20AC}\U{00A2} Get a custom automation quote\n"
      + "\U{00E2}\U{20AC}\U{00A2} See live demos of our solutions\n"
      + "\n"
      + "\U{00E2}\U{0161}\U{00A1} **Next Steps:**\n"
      + "1. Tell me more about your business needs\n"
      + "2. I'll provide specific recommendations  \n"
      + "3. Schedule your free consultation call\n"
      + "\n"
      + "What automation challenges is your business facing right "
      + "now?"
  }

  /** The menu shown when no test of the chain passes. */
  function MenuText(): string
  {
      "I'd be happy to help! I can provide information about:\n"
      + "\n"
      + "\U{00F0}\U{0178}\U{00A4}\U{2013} **Our 6 Main Automations:**\n"
      + "\U{00E2}\U{20AC}\U{00A2} Customer Service Chatbots ($297/mo)\n"
      + "\U{00E2}\U{20AC}\U{00A2} Lead Generation ($397/mo)  \n"
      + "\U{00E2}\U{20AC}\U{00A2} Social Media Automation ($197/mo)\n"
      + "\U{00E2}\U{20AC}\U{00A2} Email Marketing ($347/mo)\n"
      + "\U{00E2}\U{20AC}\U{00A2} Inventory Management ($447/mo)\n"
      + "\U{00E2}\U{20AC}\U{00A2} Appointment Scheduling ($247/mo)\n"
      + "\n"
      + "\U{00F0}\U{0178}\U{2019}\U{00A1} **General Info:**\n"
      + "\U{00E2}\U{20AC}\U{00A2} Custom automation solutions\n"
      + "\U{00E2}\U{20AC}\U{00A2} 24-hour setup process\n"
      + "\U{00E2}\U{20AC}\U{00A2} Pricing and packages\n"
      + "\U{00E2}\U{20AC}\U{00A2} Industry compatibility\n"
      + "\n"
      + "What specific area interests you most?"
  }
}
